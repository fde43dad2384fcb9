/**
 * The supervisor's pass over the registered channels: the blocking ones are rejoined first, one at a time,
 * and only then do the others get a recovery of their own.
 */
module ChannelOrder {
  import opened Wrappers
  import opened ClientStates
  import opened Channels
  import opened Mailboxes
  import opened ChannelProtocol
  import opened ChannelInvariant
  import opened ChannelHandlers
  import opened ChannelAttended
  import opened ChannelPass
  import opened ChannelHistory
  import opened ChannelSystem
  import opened ChannelLedger
  import opened ChannelQuiet
  import opened ChannelEffects
  import opened ChannelReports
  import opened ChannelTheorems
  import opened ChannelProgress

  /** Registered when the connection was adopted, and not rejoined since. */
  predicate Outdated(s: System, c: Channel) {
    c.registered && c.state != Left && c.generation != s.client.generation
  }

  /** What the pass works on or still awaits blocks the reconnect, what it leaves for the end does not, and nothing is forgotten. */
  predicate SortedAt(s: System, i: nat)
    requires i < |s.channels|
  {
    var c, role := s.channels[i], RoleOf(s.pass, i);
    s.pass.Pass? ==>
      && (role == Restarting || role.Rejoins? || role == Removes || i in s.pass.required ==> c.blocksReconnect)
      && (i in s.pass.optional ==> !c.blocksReconnect)
      && (Outdated(s, c) ==> if c.blocksReconnect then i in s.pass.required || role == Restarting else i in s.pass.optional)
  }

  // One step

  /** A step keeps a channel's side, and may join it only under the current generation. */
  predicate Aged(s: System, c: Channel, d: Channel) {
    && d.blocksReconnect == c.blocksReconnect
    && (d.registered && d.state != Left && d.generation != s.client.generation ==>
          c.registered && c.state != Left && d.generation == c.generation)
  }

  lemma GrownAged(s: System, c: Channel, d: Channel)
    requires Grows(c, d) && (d.generation == c.generation || d.generation == s.client.generation)
    requires c.state == Created ==> d.generation == s.client.generation || !d.registered
    ensures Aged(s, c, d)
  {
  }

  lemma QuietGeneration(c: Channel, d: Channel)
    requires Quiet(c, d)
    ensures d.generation == c.generation
  {
  }

  lemma RebornGeneration(c: Channel, d: Channel, mail: Mailbox, g: nat)
    requires Reborn(c, d, mail, g)
    ensures d.generation == g
  {
  }

  lemma RoutedGeneration(x: Context, c: Channel, g: nat, m: Message, hookOk: bool)
    ensures Route(x, c, g, m, hookOk).generation == c.generation
  {
    hide HandleControl, Keep, Quiet;
    HandleControlQuiet(x, c, m, hookOk);
    QuietGeneration(c, HandleControl(x, c, m, hookOk).0);
    KeepOnlyMail(x, c, m);
  }

  lemma StirredGeneration(s: System, i: nat, a: Action)
    requires Reachable(s) && Enabled(s, At(i, a)) && i < |s.channels| && Stirs(s.channels[i], a)
    ensures
      var c, d := s.channels[i], Act(s.client, s.channels[i], a);
      d.generation == s.client.generation || (d.generation == c.generation && !a.JoinCall?)
  {
    hide Reachable, Enabled, Next, Quiet, Reborn, ShouldRejoin, ActionEnabled, RecoveryStep, Route, TakeMessage, Sound, CauseKept,
      ContextOk, BeginJoin, RunLeave, BeginCleanup, FinishCleanup;
    var x, c := s.client, s.channels[i];
    ActAt(s, i, a);
    match a
    case Receive(g, m, hookOk) => RoutedGeneration(x, c, g, m, hookOk);
    case ProcessorTakes(handled) =>
      TakingEnabled(s, i, handled);
      TakeMessageOnlyMail(x, c, handled);
    case JoinCall(hookSync, paramsOk) =>
      BeginJoinReborn(x, c, hookSync, paramsOk);
      RebornGeneration(c, Act(x, c, a), c.mail, x.generation);
    case RecoveryRestarts(paramsOk) =>
      OkHere(s, i);
      RestartingIs(x, RoleOf(s.pass, i), c, paramsOk);
      RestartingUncancelled(x, RoleOf(s.pass, i), c, paramsOk);
      RecoveringFacts(x, s.cleaning, RoleOf(s.pass, i), c);
      RecoveryRestartsReborn(x, c, paramsOk);
      RebornGeneration(c, Act(x, c, a), Drain(c.mail), c.recovery.generation);
      RegisteredRejoins(c);
    case LeaveStarts => LeaveTaskLeaves(x, c, a);
    case LeaveAnswered => LeaveTaskLeaves(x, c, a);
    case LeaveCleansUp => LeaveTaskLeaves(x, c, a);
    case _ =>
  }

  lemma RestartingUncancelled(x: Context, role: Role, c: Channel, paramsOk: bool)
    requires ActionEnabled(x, role, c, RecoveryRestarts(paramsOk))
    ensures !c.recoveryCancelled
  {
  }

  lemma RegisteredRejoins(c: Channel)
    ensures ShouldRejoin(c) ==> c.registered
  {
  }

  /** A channel that was never joined is registered by a join call only. */
  lemma CreatedStaysOut(s: System, e: Step, i: nat)
    requires Reachable(s) && Enabled(s, e) && i < |s.channels| && s.channels[i].state == Created
    requires !(e.At? && e.channel == i && e.action.JoinCall?)
    ensures i < |Next(s, e).channels| && !Next(s, e).channels[i].registered
  {
    hide Reachable, Enabled, Next, Quiet, StirsAt, SystemOk, LedgerOk, Sound, Attended, ContextOk, ActionEnabled, Act, BeginLeave;
    ReachableOk(s);
    OkAt(s, i);
    var c := s.channels[i];
    if e.At? && e.channel == i {
      ActAt(s, i, e.action);
      CreatedActions(s.client, s.cleaning, RoleOf(s.pass, i), c, e.action);
      LeaveCallIs(s.client, c);
    } else {
      CreatedIsIdle(s, e, i);
      NextIsQuiet(s, e, i);
      NextKeeps(s, e);
      OkAt(Next(s, e), i);
      NeverJoined(s.client, s.cleaning, RoleOf(s.pass, i), c);
      QuietJoin(c, Next(s, e).channels[i]);
      Unjoined(Next(s, e).client, Next(s, e).cleaning, RoleOf(Next(s, e).pass, i), Next(s, e).channels[i]);
    }
  }

  lemma CreatedIsIdle(s: System, e: Step, i: nat)
    requires SystemOk(s) && i < |s.channels| && s.channels[i].state == Created && !(e.At? && e.channel == i)
    ensures !StirsAt(s, e, i)
  {
    hide SystemOk, Sound, Attended, ContextOk;
    OkAt(s, i);
    NeverJoined(s.client, s.cleaning, RoleOf(s.pass, i), s.channels[i]);
  }

  lemma NeverJoined(x: Context, cleaning: Cleaning, role: Role, c: Channel)
    requires Sound(x, cleaning, role, c) && c.state == Created
    ensures c.joinRef == 0 && !c.registered
  {
    hide MailOk, OperationsOk, TasksOk, PlaceOk, ReservationOk, LossOk;
  }

  lemma Unjoined(x: Context, cleaning: Cleaning, role: Role, c: Channel)
    requires Sound(x, cleaning, role, c) && c.joinRef == 0
    ensures !c.registered
  {
    hide MailOk, OperationsOk, TasksOk, ReservationOk, LossOk, LifeOk;
  }

  lemma QuietJoin(c: Channel, d: Channel)
    requires Quiet(c, d)
    ensures d.joinRef == c.joinRef
  {
  }

  lemma NextAges(s: System, e: Step, i: nat)
    requires Reachable(s) && Enabled(s, e) && i < |s.channels|
    ensures i < |Next(s, e).channels| && Aged(s, s.channels[i], Next(s, e).channels[i])
  {
    hide Reachable, Enabled, Next, Quiet, Stirs, Reborn, ShouldRejoin, Grows, Act;
    var c := s.channels[i];
    NextGrows(s, e);
    var d := Next(s, e).channels[i];
    if c.state == Created && !(e.At? && e.channel == i && e.action.JoinCall?) {
      CreatedStaysOut(s, e, i);
    }
    if !StirsAt(s, e, i) {
      NextIsQuiet(s, e, i);
      QuietGeneration(c, d);
      JoinsStir(s, e, i);
    } else if e.PassRestarts? {
      PassRestartsQuiet(s, e.paramsOk, i);
      RebornGeneration(c, d, Drain(c.mail), s.client.generation);
    } else {
      StirredGeneration(s, i, e.action);
      ActAt(s, i, e.action);
    }
    GrownAged(s, c, d);
  }

  lemma JoinsStir(s: System, e: Step, i: nat)
    requires i < |s.channels| && !StirsAt(s, e, i)
    ensures !(e.At? && e.channel == i && e.action.JoinCall?)
  {
  }

  /** The steps that leave the pass and the generation alone. */
  lemma PassStays(s: System, e: Step)
    requires Enabled(s, e)
    requires !e.Adopt? && !e.AdoptRefused? && !e.PassNext? && !e.PassRestarts? && !e.PassResumes? && !e.PassUnregistered?
    requires !e.PassOptional? && !e.SupervisorCancelled?
    ensures Next(s, e).pass == s.pass && Next(s, e).client.generation == s.client.generation
  {
    hide Act, Generates, Submits, FinishWrite, Settle, Each, ActionEnabled, CleanedUp, TimeoutError, NameTaken, OutcomeDone;
  }

  lemma StaysSorted(s: System, t: System, i: nat)
    requires i < |s.channels| && i < |t.channels| && SortedAt(s, i) && Aged(s, s.channels[i], t.channels[i])
    requires t.pass == s.pass && t.client.generation == s.client.generation
    ensures SortedAt(t, i)
  {
  }

  lemma AdoptSorts(s: System, i: nat)
    requires Enabled(s, Adopt) && i < |s.channels|
    ensures SortedAt(Next(s, Adopt), i)
  {
  }

  /** The pass turns from channel j to something else; channel i is not j. */
  lemma OtherSorted(s: System, t: System, i: nat, j: nat)
    requires i < |s.channels| && i < |t.channels| && i != j && SortedAt(s, i) && Aged(s, s.channels[i], t.channels[i])
    requires s.pass.Pass? && t.pass.Pass? && t.client.generation == s.client.generation
    requires t.pass.required == s.pass.required - {j} && t.pass.optional == s.pass.optional
    requires s.pass.active.Between? || s.pass.active.channel == j
    requires t.pass.active.Between? || t.pass.active.channel == j
    ensures SortedAt(t, i)
  {
  }

  /** Channel i is what the pass turns from. */
  lemma OwnSorted(s: System, t: System, i: nat)
    requires i < |s.channels| && i < |t.channels| && SortedAt(s, i) && Aged(s, s.channels[i], t.channels[i])
    requires s.pass.Pass? && t.pass.Pass? && t.client.generation == s.client.generation
    requires RoleOf(s.pass, i) != Uninvolved && i !in s.pass.optional && i !in t.pass.required && i !in t.pass.optional
    requires t.pass.active.Stopping? || !Outdated(t, t.channels[i])
    requires t.pass.active.Between? || t.pass.active.channel == i
    ensures SortedAt(t, i)
  {
  }

  /** A channel that waits in the pass, or is being restarted by it, is rejoined unless it left meanwhile. */
  lemma QueuedRejoins(x: Context, cleaning: Cleaning, role: Role, c: Channel)
    requires Sound(x, cleaning, role, c) && (role == Queued || role == Restarting)
    ensures ShouldRejoin(c) <==> c.registered && c.state != Left
    ensures c.generation < x.generation && c.recovery.NoRecovery? && x.connection.Some?
    ensures c.state != Left ==> c.state == Rejoining && c.established && !x.shutdown && c.leaver.NoLeaver? && c.leftBy.None?
  {
    hide MailOk, OperationsOk, LossOk;
  }

  lemma RejoinedIsCurrent(x: Context, cleaning: Cleaning, role: Role, c: Channel)
    requires Sound(x, cleaning, role, c)
    ensures role.Rejoins? ==> c.generation == x.generation
    ensures role == Removes ==> c.state == Left
  {
    hide MailOk, OperationsOk, PlaceOk, ReservationOk;
  }

  predicate IsPass(e: Step) {
    e.PassNext? || e.PassRestarts? || e.PassResumes? || e.PassUnregistered?
  }

  /** The channel a step of the pass is about. */
  function Focus(s: System, e: Step): nat
    requires IsPass(e) && (e.PassNext? || (s.pass.Pass? && !s.pass.active.Between?))
  {
    if e.PassNext? then e.channel else s.pass.active.channel
  }

  lemma PassFocuses(s: System, e: Step)
    requires PassOk(s) && Enabled(s, e) && IsPass(e)
    ensures s.pass.Pass? && (!e.PassNext? ==> !s.pass.active.Between?)
    ensures
      var j, t := Focus(s, e), Next(s, e);
      && t.pass.Pass? && t.client.generation == s.client.generation && j < |s.channels|
      && t.pass.required == s.pass.required - {j} && t.pass.optional == s.pass.optional && j !in s.pass.optional
      && (s.pass.active.Between? || s.pass.active.channel == j) && (t.pass.active.Between? || t.pass.active.channel == j)
      && RoleOf(s.pass, j) != Uninvolved && RoleOf(s.pass, j) == match e {
           case PassNext(_) => Queued
           case PassRestarts(_) => Restarting
           case PassResumes => Rejoins(s.pass.active.ref)
           case _ => Removes
         }
  {
    hide BeginRejoin, Rejoin, RejoinFailure, ShouldRejoin, JoinFailed, OutcomeDone;
  }

  lemma FocusStays(s: System, e: Step)
    requires PassOk(s) && Enabled(s, e) && (e.PassNext? || e.PassRestarts?) && (e.PassRestarts? ==> s.pass.Pass? && !s.pass.active.Between?)
    ensures
      var j, t := Focus(s, e), Next(s, e);
      && j < |s.channels| == |t.channels|
      && (!ShouldRejoin(s.channels[j]) ==> t.channels[j] == s.channels[j])
      && (ShouldRejoin(s.channels[j]) && e.PassNext? ==> t.pass.active == Stopping(j))
  {
    hide BeginRejoin, Rejoin, RejoinFailure, ShouldRejoin;
  }

  lemma PassStepSorted(s: System, e: Step, i: nat)
    requires Reachable(s) && Enabled(s, e) && IsPass(e) && i < |s.channels| && SortedAt(s, i)
    ensures i < |Next(s, e).channels| && SortedAt(Next(s, e), i)
  {
    hide Reachable, Enabled, Next, Aged, SortedAt, Sound, CauseKept, ContextOk, ShouldRejoin, Stirs, Quiet, Reborn, PassOk, Outdated;
    PassOkHere(s);
    PassFocuses(s, e);
    NextAges(s, e, i);
    var t, j := Next(s, e), Focus(s, e);
    if i != j {
      OtherSorted(s, t, i, j);
    } else {
      OkHere(s, i);
      var x, role, c := s.client, RoleOf(s.pass, i), s.channels[i];
      RejoinedIsCurrent(x, s.cleaning, role, c);
      if e.PassNext? || e.PassRestarts? {
        QueuedRejoins(x, s.cleaning, role, c);
        FocusStays(s, e);
        if ShouldRejoin(c) && e.PassRestarts? {
          PassRestartsQuiet(s, e.paramsOk, i);
          RebornGeneration(c, t.channels[i], Drain(c.mail), x.generation);
          CurrentNow(t, t.channels[i]);
        } else if !ShouldRejoin(c) {
          GoneNow(t, t.channels[i]);
        }
      } else {
        AgedStaysCurrent(s, t, c, t.channels[i]);
      }
      OwnSorted(s, t, i);
    }
  }

  lemma CurrentNow(t: System, d: Channel)
    requires d.generation == t.client.generation
    ensures !Outdated(t, d)
  {
  }

  lemma GoneNow(t: System, d: Channel)
    requires !(d.registered && d.state != Left)
    ensures !Outdated(t, d)
  {
  }

  lemma AgedStaysCurrent(s: System, t: System, c: Channel, d: Channel)
    requires Aged(s, c, d) && (c.generation == s.client.generation || c.state == Left) && t.client.generation == s.client.generation
    ensures !Outdated(t, d)
  {
  }

  lemma PassOkHere(s: System)
    requires Reachable(s)
    ensures PassOk(s)
  {
    hide Reachable, LedgerOk, PassOk, ChannelOk, ContextOk;
    ReachableOk(s);
  }

  lemma PassEnds(s: System, e: Step)
    requires Enabled(s, e) && (e.AdoptRefused? || e.PassOptional? || e.SupervisorCancelled?)
    ensures Next(s, e).pass.NoPass?
  {
  }

  lemma NextSorted(s: System, e: Step, i: nat)
    requires Reachable(s) && Enabled(s, e) && i < |s.channels| && SortedAt(s, i)
    ensures i < |Next(s, e).channels| && SortedAt(Next(s, e), i)
  {
    hide Reachable, Enabled, Next, Aged, Stirs, Quiet, Outdated;
    NextAges(s, e, i);
    if IsPass(e) {
      PassStepSorted(s, e, i);
    } else if e.Adopt? {
      AdoptSorts(s, i);
    } else if e.AdoptRefused? || e.PassOptional? || e.SupervisorCancelled? {
      PassEnds(s, e);
    } else {
      PassStays(s, e);
      StaysSorted(s, Next(s, e), i);
    }
  }

  lemma OpensSorted(s: System, e: Step, i: nat)
    requires PassOk(s) && Enabled(s, e) && |s.channels| <= i < |Next(s, e).channels|
    ensures SortedAt(Next(s, e), i)
  {
    hide Act, Generates, Submits, FinishWrite, Settle, BeginRejoin, Rejoin, RejoinFailure, ShouldRejoin, JoinFailed, ActionEnabled, CleanedUp,
      NameTaken, OutcomeDone;
    assert e.Open?;
  }

  // Every run

  lemma {:induction false} RunSorted(v2: bool, queueLimit: nat, steps: seq<Step>, i: nat)
    requires Run(v2, queueLimit, steps).Some? && i < |Run(v2, queueLimit, steps).value.channels|
    ensures SortedAt(Run(v2, queueLimit, steps).value, i)
  {
    hide Run, Next, Enabled, Reachable, SortedAt, PassOk;
    if steps == [] {
      EmptyRun(v2, queueLimit);
    } else {
      LastStep(v2, queueLimit, steps);
      var before := steps[..|steps| - 1];
      var s := Run(v2, queueLimit, before).value;
      RunReaches(v2, queueLimit, before);
      if i < |s.channels| {
        RunSorted(v2, queueLimit, before, i);
        NextSorted(s, steps[|steps| - 1], i);
      } else {
        PassOkHere(s);
        OpensSorted(s, steps[|steps| - 1], i);
      }
    }
  }

  /** At every reachable state: the pass works only on channels that block the reconnect, leaves exactly the others for the end, and
      has every channel registered at the adoption that is not rejoined yet in one of the two. */
  lemma PassIsSorted(s: System, i: nat)
    requires Reachable(s) && i < |s.channels|
    ensures SortedAt(s, i)
  {
    hide Run, SortedAt;
    var v2: bool, queueLimit: nat, steps: seq<Step> :| Run(v2, queueLimit, steps) == Some(s);
    RunSorted(v2, queueLimit, steps, i);
  }

  /** When the pass turns to the optional channels, every blocking channel that was registered at the adoption has been
      restarted on the new connection, or is LEFT or without its name. */
  lemma RequiredBeforeOptional(s: System, i: nat)
    requires Reachable(s) && Enabled(s, PassOptional) && i < |s.channels| && s.channels[i].blocksReconnect
    ensures
      var c := s.channels[i];
      !c.registered || c.state == Left || c.generation == s.client.generation
  {
    hide Reachable;
    PassIsSorted(s, i);
  }

  /** Then exactly the other channels of before the adoption that can be rejoined get a recovery, for the new connection. */
  lemma OptionalAreRecovered(s: System, i: nat)
    requires Reachable(s) && Enabled(s, PassOptional) && i < |s.channels|
    ensures
      var x, c, t := s.client, s.channels[i], Next(s, PassOptional);
      && i < |t.channels| && t.pass.NoPass? && t.channels[i].state == c.state
      && t.channels[i].recovery ==
           if !c.blocksReconnect && c.registered && c.state != Left && c.generation != x.generation && x.state == Connected
           then Backoff(x.generation) else c.recovery
  {
    hide Reachable, Sound, CauseKept, ContextOk, StartRecovery;
    PassIsSorted(s, i);
    OkHere(s, i);
    var x, c := s.client, s.channels[i];
    if i in s.pass.optional {
      QueuedRejoins(x, s.cleaning, Queued, c);
      OptionalStarts(x, c);
    }
  }

  lemma StartedFields(c: Channel, g: nat)
    ensures
      var d := c.(recovery := Backoff(g), recoveryCancelled := false);
      && d.state == c.state && d.recovery == Backoff(g) && d.leftBy == c.leftBy && d.leaver == c.leaver && d.ready == c.ready
      && d.registered == c.registered
  {
  }

  lemma OptionalStarts(x: Context, c: Channel)
    requires c.recovery.NoRecovery? && x.connection.Some? && (c.state != Left ==> !x.shutdown)
    requires ShouldRejoin(c) <==> c.registered && c.state != Left
    ensures
      var d := StartRecovery(x, c, Some(x.generation));
      d.state == c.state && d.recovery == if c.registered && c.state != Left && x.state == Connected then Backoff(x.generation) else NoRecovery
  {
    hide ShouldRejoin;
    StartedFields(c, x.generation);
  }

  // What each step of the pass does

  /** A rejoin that failed: a refused one removes the channel, another one leaves it to a recovery. */
  predicate FailedRejoinEffect(x: Context, c: Channel, failure: Failure, i: nat, active: Active, d: Channel) {
    var refused := failure.ChannelFailure? && (c.cause.None? || c.cause == Some(Accepted) || c.cause == Some(Timeout));
    && (refused ==> d.state == Left && d.leftBy == Some(if c.leftBy.None? then (Configuration, failure) else c.leftBy.value))
    && if x.shutdown then active == Between
       else if refused || Rejection(c.cause) then
         if c.registered then active == Unregistering(i) && d.state == Left && !d.leaver.NoLeaver? && d.registered
         else active == Between
       else
         && active == Between && d.state == c.state
         && d.recovery == if c.recovery.NoRecovery? && GoesOn(x, c) then Backoff(x.generation) else c.recovery
  }

  predicate PassEffect(s: System, e: Step, t: System)
    requires IsPass(e) && s.pass.Pass? && (e.PassNext? || !s.pass.active.Between?)
  {
    var x, j := s.client, Focus(s, e);
    j < |s.channels| == |t.channels| && t.pass.Pass? &&
    var c, d, active := s.channels[j], t.channels[j], t.pass.active;
    match e
    case PassNext(_) =>
      if c.registered && c.state == Rejoining then active == Stopping(j) && d.restartRequested && d.state == Rejoining
      else active == Between && d == c
    case PassRestarts(paramsOk) =>
      if !(c.registered && c.state == Rejoining) then active == Between && d == c
      else if paramsOk then
        && active == Awaiting(j, x.refs + 1) && d.state == Rejoining && AwaitsJoin(x, d, x.refs + 1)
        && !d.terminal && !d.restartRequested
      else
        && active == Unregistering(j) && d.state == Left && d.leftBy == Some((Configuration, ChannelFailure(BadParams)))
        && d.leaver == LeaveScheduled
    case PassResumes =>
      s.pass.active.Awaiting? && s.pass.active.ref in c.operations &&
      (match c.operations[s.pass.active.ref].outcome
       case Pending => false
       case Succeeded => active == Between && d == c
       case Failed(failure) => FailedRejoinEffect(x, c, failure, j, active, d))
    case _ => active == Between && d.loss == LossReporting && d.state == c.state
  }

  lemma RequestedFields(x: Context, c: Channel)
    requires c.state != Joined
    ensures BeginRejoin(x, c).restartRequested && BeginRejoin(x, c).state == c.state
  {
    hide Transition;
  }

  lemma RefusedPass(x: Context, cleaning: Cleaning, c: Channel)
    requires ContextOk(x) && Sound(x, cleaning, Restarting, c) && c.registered && c.state == Rejoining
    ensures
      var (d, removing) := RejoinFailure(x, Rejoin(x, c, x.generation, false));
      removing && d.state == Left && d.leftBy == Some((Configuration, ChannelFailure(BadParams))) && d.leaver == LeaveScheduled
  {
    hide Sound, Restart, Transition;
    QueuedRejoins(x, cleaning, Restarting, c);
    RestartFields(x, c, x.generation);
    TransitionFrame(x, Restart(x, c, x.generation), Configuration, ChannelFailure(BadParams));
    LeftScheduledIs(Transition(x, Restart(x, c, x.generation), Configuration, ChannelFailure(BadParams)));
  }

  lemma LeftScheduledIs(c: Channel)
    ensures
      var d := c.(leaver := LeaveScheduled);
      d.state == c.state && d.leftBy == c.leftBy && d.leaver == LeaveScheduled && d.registered == c.registered
  {
  }

  lemma PassNextTakesEffect(s: System, j: nat)
    requires Reachable(s) && Enabled(s, PassNext(j))
    ensures s.pass.Pass? && PassEffect(s, PassNext(j), Next(s, PassNext(j)))
  {
    hide Reachable, Sound, CauseKept, ContextOk, BeginRejoin, ShouldRejoin, PassOk;
    PassOkHere(s);
    PassFocuses(s, PassNext(j));
    OkHere(s, j);
    QueuedRejoins(s.client, s.cleaning, Queued, s.channels[j]);
    if ShouldRejoin(s.channels[j]) {
      RequestedFields(s.client, s.channels[j]);
    }
  }

  lemma PassRestartsTakesEffect(s: System, paramsOk: bool)
    requires Reachable(s) && Enabled(s, PassRestarts(paramsOk))
    ensures s.pass.Pass? && !s.pass.active.Between? && PassEffect(s, PassRestarts(paramsOk), Next(s, PassRestarts(paramsOk)))
  {
    hide Reachable, Sound, CauseKept, ContextOk, Rejoin, RejoinFailure, ShouldRejoin, PassOk, AwaitsJoin;
    PassOkHere(s);
    PassFocuses(s, PassRestarts(paramsOk));
    var x, j := s.client, s.pass.active.channel;
    var c := s.channels[j];
    OkHere(s, j);
    QueuedRejoins(x, s.cleaning, Restarting, c);
    if ShouldRejoin(c) {
      if paramsOk {
        RejoinAwaits(x, c);
        AwaitedRef(x, Rejoin(x, c, x.generation, true), x.refs + 1);
      } else {
        RefusedPass(x, s.cleaning, c);
      }
    }
  }

  lemma AwaitedRef(x: Context, d: Channel, r: Ref)
    requires AwaitsJoin(x, d, r)
    ensures d.joinRef == r
  {
  }

  lemma RefusedResumes(x: Context, c: Channel, failure: Failure)
    requires failure.ChannelFailure? && (c.cause.None? || c.cause == Some(Accepted) || c.cause == Some(Timeout))
    requires (c.state == Left <==> c.leaveRequested) && (c.state == Left <==> c.leftBy.Some?)
    ensures
      var d := JoinFailed(x, c, failure);
      && d.state == Left && d.leftBy == Some(if c.leftBy.None? then (Configuration, failure) else c.leftBy.value)
      && d.registered == c.registered && Rejection(d.cause)
  {
    hide Transition;
    TransitionFrame(x, c, Configuration, failure);
  }

  lemma RemovedFields(x: Context, c: Channel)
    requires c.state == Left && Rejection(c.cause) && !x.shutdown && x.state != ShuttingDown
    ensures
      var (d, removing) := RejoinFailure(x, c);
      && removing == c.registered && d.state == Left && d.leftBy == c.leftBy && d.registered == c.registered
      && (c.registered ==> !d.leaver.NoLeaver?)
  {
    hide Transition;
    LeftScheduledIs(c);
  }

  lemma RecoveredFields(x: Context, c: Channel)
    requires !Rejection(c.cause) && !x.shutdown && x.state != ShuttingDown && c.generation == x.generation && x.connection.Some?
    requires c.established && (c.state == Left <==> c.leaveRequested) && (c.state == Rejoining || c.state == Left)
    ensures
      var (d, removing) := RejoinFailure(x, c);
      && !removing && d.state == c.state
      && d.recovery == if c.recovery.NoRecovery? && GoesOn(x, c) then Backoff(x.generation) else c.recovery
  {
    StartedFields(c, x.generation);
  }

  lemma ResumedFields(x: Context, cleaning: Cleaning, role: Role, c: Channel, failure: Failure, i: nat)
    requires ContextOk(x) && Sound(x, cleaning, role, c) && CauseKept(role, c) && role.Rejoins?
    requires role.ref in c.operations && c.operations[role.ref].outcome == Failed(failure)
    ensures
      var (d, removing) := RejoinFailure(x, JoinFailed(x, c, failure));
      FailedRejoinEffect(x, c, failure, i, if removing then Unregistering(i) else Between, d)
  {
    hide Sound, JoinFailed, RejoinFailure;
    RejoinsFacts(x, cleaning, role, c);
    Facts(x, cleaning, role, c);
    LeftFacts(x, cleaning, role, c);
    var d := JoinFailed(x, c, failure);
    if failure.ChannelFailure? && (c.cause.None? || c.cause == Some(Accepted) || c.cause == Some(Timeout)) {
      RefusedResumes(x, c, failure);
      if x.shutdown {
        Stopped(x, d);
      } else {
        RemovedFields(x, d);
      }
    } else if x.shutdown {
      Stopped(x, d);
    } else if Rejection(c.cause) {
      RejectedJoinFailed(x, c, failure);
      assert d == c;
      RemovedFields(x, c);
    } else {
      SteadyFields(x, c, failure);
      RecoveredFields(x, d);
    }
  }

  lemma Stopped(x: Context, c: Channel)
    requires x.shutdown
    ensures RejoinFailure(x, c) == (c, false)
  {
    hide Unregister, StartRecovery;
  }

  lemma SteadyFields(x: Context, c: Channel, failure: Failure)
    requires (c.state == Left <==> c.leaveRequested) && (c.state == Rejoining || c.state == Left) && c.established && !x.shutdown
    requires !(failure.ChannelFailure? && (c.cause.None? || c.cause == Some(Accepted) || c.cause == Some(Timeout)))
    requires !Rejection(c.cause)
    ensures
      var d := JoinFailed(x, c, failure);
      && d.state == c.state && d.registered == c.registered && d.established && !Rejection(d.cause) && d.leaveRequested == c.leaveRequested
      && d.recovery == c.recovery && d.generation == c.generation
  {
    hide Transition;
    TransitionFrame(x, c, Timeout, ChannelFailure(DeadlineExpired));
  }

  lemma PassResumesTakesEffect(s: System)
    requires Reachable(s) && Enabled(s, PassResumes)
    ensures s.pass.Pass? && !s.pass.active.Between? && PassEffect(s, PassResumes, Next(s, PassResumes))
  {
    hide Reachable, Sound, CauseKept, ContextOk, JoinFailed, RejoinFailure, PassOk, FailedRejoinEffect;
    PassOkHere(s);
    PassFocuses(s, PassResumes);
    var x, j := s.client, s.pass.active.channel;
    var c := s.channels[j];
    OkHere(s, j);
    if c.operations[s.pass.active.ref].outcome.Failed? {
      ResumedFields(x, s.cleaning, RoleOf(s.pass, j), c, c.operations[s.pass.active.ref].outcome.failure, j);
    }
  }

  lemma PassUnregisteredTakesEffect(s: System)
    requires Reachable(s) && Enabled(s, PassUnregistered)
    ensures s.pass.Pass? && !s.pass.active.Between? && PassEffect(s, PassUnregistered, Next(s, PassUnregistered))
  {
    hide Reachable, PassOk;
    PassOkHere(s);
    PassFocuses(s, PassUnregistered);
  }

  /** The pass restarts what can be rejoined, waits for exactly the fresh join, and removes or hands over what failed. */
  lemma PassStepsTakeEffect(s: System, e: Step)
    requires Reachable(s) && Enabled(s, e) && IsPass(e)
    ensures s.pass.Pass? && (e.PassNext? || !s.pass.active.Between?) && PassEffect(s, e, Next(s, e))
  {
    hide Reachable, Enabled, Next, PassEffect;
    match e
    case PassNext(j) => PassNextTakesEffect(s, j);
    case PassRestarts(paramsOk) => PassRestartsTakesEffect(s, paramsOk);
    case PassResumes => PassResumesTakesEffect(s);
    case PassUnregistered => PassUnregisteredTakesEffect(s);
  }
}
