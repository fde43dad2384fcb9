/** The invariant of every channel holds after every step of the whole client. */
module ChannelSystem {
  import opened Wrappers
  import opened Channels
  import opened ChannelProtocol
  import opened ChannelInvariant
  import opened ChannelSteps
  import opened ChannelAttended
  import opened ChannelSweeps
  import opened ChannelPass

  predicate ActiveOk(active: Active, required: set<nat>, optional: set<nat>, count: nat) {
    !active.Between? ==> active.channel < count && active.channel !in required && active.channel !in optional
  }

  predicate PassOk(s: System) {
    && (s.pass.Pass? ==>
        && s.client.connection.Some? && s.cleaning.None?
        && s.pass.required !! s.pass.optional
        && (forall i :: i in s.pass.required ==> i < |s.channels|)
        && (forall i :: i in s.pass.optional ==> i < |s.channels|)
        && ActiveOk(s.pass.active, s.pass.required, s.pass.optional, |s.channels|))
    && (s.cleaning.Some? ==> s.client.connection.None?)
  }

  predicate SystemOk(s: System) {
    && ContextOk(s.client)
    && PassOk(s)
    && (forall i :: 0 <= i < |s.channels| ==> ChannelOk(s.client, s.cleaning, RoleOf(s.pass, i), s.channels[i]))
  }

  /** The invariant at channel i. */
  lemma OkAt(s: System, i: nat)
    requires SystemOk(s) && i < |s.channels|
    ensures Sound(s.client, s.cleaning, RoleOf(s.pass, i), s.channels[i])
    ensures Attended(s.client, RoleOf(s.pass, i), s.channels[i]) && ContextOk(s.client)
  {
    hide Sound, Attended, ContextOk;
  }

  lemma InitOk(v2: bool, queueLimit: nat)
    ensures SystemOk(Init(v2, queueLimit))
  {
  }

  lemma OpenKeeps(s: System, name: string, blocksReconnect: bool)
    requires SystemOk(s)
    ensures SystemOk(Next(s, Open(name, blocksReconnect)))
  {
    hide ChannelOk, NewChannel, ContextOk;
    NewChannelOk(s.client, s.cleaning, name, blocksReconnect);
    assert RoleOf(s.pass, |s.channels|) == Uninvolved;
    var t := Next(s, Open(name, blocksReconnect));
    assert PassOk(t);
  }

  /** One channel moves and may have generated a ref. */
  lemma OneMoves(s: System, i: nat, c: Channel, generates: bool)
    requires SystemOk(s) && i < |s.channels|
    requires ChannelOk(if generates then s.client.(refs := s.client.refs + 1) else s.client, s.cleaning, RoleOf(s.pass, i), c)
    ensures SystemOk(if generates then Generate(Update(s, i, c), i) else Update(s, i, c))
  {
    hide ChannelOk;
    if generates {
      forall j | 0 <= j < |s.channels| && j != i
        ensures ChannelOk(s.client.(refs := s.client.refs + 1), s.cleaning, RoleOf(s.pass, j), s.channels[j])
      {
        OthersOk(s.client, s.cleaning, RoleOf(s.pass, j), s.channels[j]);
      }
    }
  }

  lemma ActKeeps(s: System, i: nat, a: Action)
    requires SystemOk(s) && Enabled(s, At(i, a))
    ensures SystemOk(Next(s, At(i, a)))
  {
    hide Sound, Attended, Act, Generates, ActionEnabled, Submits;
    var x, role, c := s.client, RoleOf(s.pass, i), s.channels[i];
    ActAttended(x, s.cleaning, role, c, a);
    CauseIsKept(x, role, c);
    ActSound(x, s.cleaning, role, c, a);
    OneMoves(s, i, Act(x, c, a), Generates(x, c, a));
    SendsGenerateNothing(x, c, a);
  }

  lemma CauseIsKept(x: Context, role: Role, c: Channel)
    requires Attended(x, role, c)
    ensures CauseKept(role, c)
  {
  }

  lemma SendsGenerateNothing(x: Context, c: Channel, a: Action)
    ensures a.SendStarts? ==> !Generates(x, c, a)
  {
  }

  // Sweeps over all channels

  /** The pass and the cleanup stay; every channel is mapped. */
  lemma AllMove(s: System, t: System)
    requires SystemOk(s) && ContextOk(t.client) && t.pass == s.pass && t.cleaning == s.cleaning
    requires t.client.connection == s.client.connection && |t.channels| == |s.channels|
    requires forall i :: 0 <= i < |s.channels| ==> ChannelOk(t.client, t.cleaning, RoleOf(t.pass, i), t.channels[i])
    ensures SystemOk(t)
  {
    hide ChannelOk, ContextOk;
  }

  lemma FailSessionKeeps(s: System)
    requires SystemOk(s) && s.client.connection.Some?
    ensures SystemOk(FailSession(s))
  {
    hide ChannelOk, FailPending;
    if !s.client.sendFailed {
      var t := FailSession(s);
      forall i | 0 <= i < |s.channels|
        ensures ChannelOk(t.client, t.cleaning, RoleOf(t.pass, i), t.channels[i])
      {
        FailSessionOk(s.client, s.cleaning, RoleOf(s.pass, i), s.channels[i]);
      }
      AllMove(s, t);
    }
  }

  lemma WriteLostKeeps(s: System, i: nat, r: Ref)
    requires SystemOk(s) && Enabled(s, WriteLost(i, r))
    ensures SystemOk(Next(s, WriteLost(i, r)))
  {
    hide ChannelOk, FinishWrite, FailSession;
    WriteLostOk(s.client, s.cleaning, RoleOf(s.pass, i), s.channels[i], r);
    OneMoves(s, i, FinishWrite(s.channels[i], r, true), false);
    if s.client.connection.Some? {
      FailSessionKeeps(Update(s, i, FinishWrite(s.channels[i], r, true)));
    }
  }

  lemma ExpiresKeeps(s: System, i: nat, r: Ref)
    requires SystemOk(s) && Enabled(s, Expires(i, r))
    ensures SystemOk(Next(s, Expires(i, r)))
  {
    hide ChannelOk, Settle, FailSession;
    var c := s.channels[i];
    var failure := TimeoutError(c.operations[r].kind);
    ExpiresOk(s.client, s.cleaning, RoleOf(s.pass, i), c, r, failure);
    OneMoves(s, i, Settle(c, r, Failed(failure)), false);
    FailSessionKeeps(Update(s, i, Settle(c, r, Failed(failure))));
  }

  lemma RoutingStopsKeeps(s: System)
    requires SystemOk(s) && Enabled(s, RoutingStops)
    ensures SystemOk(Next(s, RoutingStops))
  {
    hide ChannelOk, FailPending;
    var t := Next(s, RoutingStops);
    forall i | 0 <= i < |s.channels|
      ensures ChannelOk(t.client, t.cleaning, RoleOf(t.pass, i), t.channels[i])
    {
      RoutingStopsOk(s.client, s.cleaning, RoleOf(s.pass, i), s.channels[i]);
    }
    AllMove(s, t);
  }

  lemma DisconnectKeeps(s: System, closed: Option<ConnectionId>)
    requires SystemOk(s) && s.pass.NoPass? && s.cleaning.None? && closed == s.client.connection
    ensures SystemOk(BeginCleanupOf(s, closed))
  {
    hide ChannelOk, BeginDisconnect;
    var t := BeginCleanupOf(s, closed);
    forall i | 0 <= i < |s.channels|
      ensures ChannelOk(t.client, t.cleaning, RoleOf(t.pass, i), t.channels[i])
    {
      BeginDisconnectOk(s.client, s.channels[i]);
    }
  }

  lemma AdoptRefusedKeeps(s: System)
    requires SystemOk(s) && Enabled(s, AdoptRefused)
    ensures SystemOk(Next(s, AdoptRefused))
  {
    hide ChannelOk, BeginCleanupOf;
    var t := s.(client := Opened(s.client, s.sockets), sockets := s.sockets + 1);
    forall i | 0 <= i < |s.channels|
      ensures ChannelOk(t.client, t.cleaning, RoleOf(t.pass, i), t.channels[i])
    {
      OpenedOk(s.client, s.channels[i], s.sockets);
    }
    DisconnectKeeps(t, Some(s.sockets));
  }

  lemma AdoptKeeps(s: System)
    requires SystemOk(s) && Enabled(s, Adopt)
    ensures SystemOk(Next(s, Adopt))
  {
    hide Sound, Attended;
    var t := Next(s, Adopt);
    forall i | 0 <= i < |s.channels|
      ensures ChannelOk(t.client, t.cleaning, RoleOf(t.pass, i), t.channels[i])
    {
      AdoptedSound(s.client, s.channels[i], s.sockets);
      AdoptedAttended(s.client, s.channels[i], s.sockets);
      assert RoleOf(t.pass, i) == if s.channels[i].registered then Queued else Uninvolved;
    }
  }

  lemma AdoptWhileStoppingKeeps(s: System)
    requires SystemOk(s) && Enabled(s, AdoptWhileStopping)
    ensures SystemOk(Next(s, AdoptWhileStopping))
  {
    hide ChannelOk;
    var t := Next(s, AdoptWhileStopping);
    forall i | 0 <= i < |s.channels|
      ensures ChannelOk(t.client, t.cleaning, RoleOf(t.pass, i), t.channels[i])
    {
      LateSocketOk(s.client, s.channels[i], s.sockets);
    }
  }

  lemma CleanupEndsKeeps(s: System)
    requires SystemOk(s) && Enabled(s, CleanupEnds)
    ensures SystemOk(Next(s, CleanupEnds))
  {
    hide ChannelOk, EndCleanup, CleanedUp;
    var t := Next(s, CleanupEnds);
    forall i | 0 <= i < |s.channels|
      ensures ChannelOk(t.client, t.cleaning, RoleOf(t.pass, i), t.channels[i])
    {
      EndCleanupOk(s.client, s.cleaning.value, s.channels[i]);
    }
  }

  lemma StopKeeps(s: System, e: Step)
    requires SystemOk(s) && Enabled(s, e) && (e.RequestStop? || e.SupervisorExits?)
    ensures SystemOk(Next(s, e))
  {
    hide ChannelOk, Retire;
    var t := Next(s, e);
    var failure := if e.RequestStop? then ChannelFailure(StoppingClient) else SocketFailure;
    forall i | 0 <= i < |s.channels|
      ensures ChannelOk(t.client, t.cleaning, RoleOf(t.pass, i), t.channels[i])
    {
      RetireSame(s.client, t.client, s.channels[i], failure);
      RetireOk(s.client, t.client, s.cleaning, RoleOf(s.pass, i), s.channels[i], failure);
    }
    AllMove(s, t);
  }

  lemma SupervisorCancelledKeeps(s: System)
    requires SystemOk(s) && Enabled(s, SupervisorCancelled)
    ensures SystemOk(Next(s, SupervisorCancelled))
  {
    hide ChannelOk;
    forall i | 0 <= i < |s.channels|
      ensures ChannelOk(s.client, s.cleaning, Uninvolved, s.channels[i])
    {
      PassCancelledOk(s.client, s.cleaning, RoleOf(s.pass, i), s.channels[i]);
    }
  }

  // The pass

  /** The pass moves one channel to another role. */
  lemma PassMoves(s: System, i: nat, c: Channel, active: Active, role: Role, generates: bool)
    requires SystemOk(s) && s.pass.Pass? && i < |s.channels|
    requires s.pass.active.Between? || s.pass.active.channel == i
    requires !active.Between? ==> active.channel == i
    requires i !in s.pass.optional
    requires
      var pass := s.pass.(required := s.pass.required - {i}, active := active);
      && role == RoleOf(pass, i)
      && ChannelOk(if generates then s.client.(refs := s.client.refs + 1) else s.client, s.cleaning, role, c)
    ensures
      var pass := s.pass.(required := s.pass.required - {i}, active := active);
      var t := if generates then Generate(Update(s, i, c), i) else Update(s, i, c);
      SystemOk(t.(pass := pass))
  {
    hide ChannelOk;
    var pass := s.pass.(required := s.pass.required - {i}, active := active);
    forall j | 0 <= j < |s.channels| && j != i
      ensures RoleOf(pass, j) == RoleOf(s.pass, j)
      ensures ChannelOk(if generates then s.client.(refs := s.client.refs + 1) else s.client, s.cleaning, RoleOf(pass, j), s.channels[j])
    {
      if generates {
        OthersOk(s.client, s.cleaning, RoleOf(s.pass, j), s.channels[j]);
      }
    }
    var t := if generates then Generate(Update(s, i, c), i) else Update(s, i, c);
    assert PassOk(t.(pass := pass));
  }

  lemma PassNextKeeps(s: System, i: nat)
    requires SystemOk(s) && Enabled(s, PassNext(i))
    ensures SystemOk(Next(s, PassNext(i)))
  {
    hide ChannelOk, BeginRejoin, ShouldRejoin;
    var c := s.channels[i];
    assert RoleOf(s.pass, i) == Queued;
    if ShouldRejoin(c) {
      PassNextOk(s.client, s.cleaning, c);
      PassMoves(s, i, BeginRejoin(s.client, c), Stopping(i), Restarting, false);
    } else {
      SkippedOk(s.client, s.cleaning, Queued, c);
      PassMoves(s, i, c, Between, Uninvolved, false);
      assert Update(s, i, c) == s;
    }
  }

  lemma NotQueued(s: System)
    requires PassOk(s) && s.pass.Pass? && !s.pass.active.Between?
    ensures s.pass.required - {s.pass.active.channel} == s.pass.required
    ensures RoleOf(s.pass.(active := Between), s.pass.active.channel) == Uninvolved
  {
  }

  lemma PassRestartsKeeps(s: System, paramsOk: bool)
    requires SystemOk(s) && Enabled(s, PassRestarts(paramsOk))
    ensures SystemOk(Next(s, PassRestarts(paramsOk)))
  {
    hide ChannelOk, Rejoin, ShouldRejoin, RejoinFailure;
    var x, i := s.client, s.pass.active.channel;
    var c := s.channels[i];
    NotQueued(s);
    if !ShouldRejoin(c) {
      SkippedOk(x, s.cleaning, Restarting, c);
      PassMoves(s, i, c, Between, Uninvolved, false);
      assert Update(s, i, c) == s;
    } else if paramsOk {
      PassRejoinsOk(x, s.cleaning, c);
      RejoinKeepsRecovery(x, c, x.generation);
      PassMoves(s, i, Rejoin(x, c, x.generation, true), Awaiting(i, x.refs + 1), Rejoins(x.refs + 1), true);
    } else {
      PassRefusedOk(x, s.cleaning, c);
      var (d, removing) := RejoinFailure(x, Rejoin(x, c, x.generation, false));
      PassMoves(s, i, d, Unregistering(i), Removes, true);
    }
  }

  lemma PassResumesKeeps(s: System)
    requires SystemOk(s) && Enabled(s, PassResumes)
    ensures SystemOk(Next(s, PassResumes))
  {
    hide ChannelOk, JoinFailed, RejoinFailure;
    var x, i, r := s.client, s.pass.active.channel, s.pass.active.ref;
    var c := s.channels[i];
    NotQueued(s);
    RejoinsOwnRef(x, s.cleaning, RoleOf(s.pass, i), c);
    var outcome := c.operations[r].outcome;
    if outcome.Succeeded? {
      PassSucceededOk(x, s.cleaning, RoleOf(s.pass, i), c);
      PassMoves(s, i, c, Between, Uninvolved, false);
      assert Update(s, i, c) == s;
    } else {
      PassFailedOk(x, s.cleaning, RoleOf(s.pass, i), c, outcome.failure);
      var (d, removing) := RejoinFailure(x, JoinFailed(x, c, outcome.failure));
      PassMoves(s, i, d, if removing then Unregistering(i) else Between, if removing then Removes else Uninvolved, false);
    }
  }

  lemma RejoinsOwnRef(x: Context, cleaning: Cleaning, role: Role, c: Channel)
    requires ChannelOk(x, cleaning, role, c) && role.Rejoins?
    ensures role.ref == c.joinRef && c.joinRef in c.operations
  {
  }

  lemma PassUnregisteredKeeps(s: System)
    requires SystemOk(s) && Enabled(s, PassUnregistered)
    ensures SystemOk(Next(s, PassUnregistered))
  {
    hide ChannelOk;
    var i := s.pass.active.channel;
    NotQueued(s);
    UnregisteredOk(s.client, s.cleaning, s.channels[i]);
    PassMoves(s, i, s.channels[i].(loss := LossReporting), Between, Uninvolved, false);
  }

  lemma PassOptionalKeeps(s: System)
    requires SystemOk(s) && Enabled(s, PassOptional)
    ensures SystemOk(Next(s, PassOptional))
  {
    hide ChannelOk, StartRecovery;
    var t := Next(s, PassOptional);
    forall i | 0 <= i < |s.channels|
      ensures ChannelOk(t.client, t.cleaning, Uninvolved, t.channels[i])
    {
      if i in s.pass.optional {
        OptionalOk(s.client, s.cleaning, s.channels[i]);
      }
    }
  }

  /** Every step of the whole client keeps the invariant. */
  lemma NextKeeps(s: System, e: Step)
    requires SystemOk(s) && Enabled(s, e)
    ensures SystemOk(Next(s, e))
  {
    hide SystemOk, Next;
    match e
    case Open(name, blocks) => OpenKeeps(s, name, blocks);
    case At(i, a) => ActKeeps(s, i, a);
    case WriteLost(i, r) => WriteLostKeeps(s, i, r);
    case Expires(i, r) => ExpiresKeeps(s, i, r);
    case Answers(k, r, body) => AnswersKeeps(s, k, r, body);
    case PassNext(i) => PassNextKeeps(s, i);
    case PassRestarts(paramsOk) => PassRestartsKeeps(s, paramsOk);
    case PassResumes => PassResumesKeeps(s);
    case PassUnregistered => PassUnregisteredKeeps(s);
    case PassOptional => PassOptionalKeeps(s);
    case Adopt => AdoptKeeps(s);
    case AdoptRefused => AdoptRefusedKeeps(s);
    case AdoptWhileStopping => AdoptWhileStoppingKeeps(s);
    case RoutingStops => RoutingStopsKeeps(s);
    case CleanupBegins => CleanupBeginsKeeps(s);
    case CleanupEnds => CleanupEndsKeeps(s);
    case RequestStop => StopKeeps(s, e);
    case SupervisorCancelled => SupervisorCancelledKeeps(s);
    case SupervisorExits => StopKeeps(s, e);
  }

  lemma AnswersKeeps(s: System, k: ConnectionId, r: Ref, body: Body)
    requires SystemOk(s) && Enabled(s, Answers(k, r, body))
    ensures SystemOk(Next(s, Answers(k, r, body)))
  {
    hide ChannelOk, ContextOk;
    assert PassOk(Next(s, Answers(k, r, body)));
  }

  lemma CleanupBeginsKeeps(s: System)
    requires SystemOk(s) && Enabled(s, CleanupBegins)
    ensures SystemOk(Next(s, CleanupBegins))
  {
    hide SystemOk, BeginCleanupOf;
    DisconnectKeeps(s, s.client.connection);
  }

  /** The invariant holds after every run. */
  lemma {:induction false} RunKeeps(v2: bool, queueLimit: nat, steps: seq<Step>)
    requires Run(v2, queueLimit, steps).Some?
    ensures SystemOk(Run(v2, queueLimit, steps).value)
  {
    hide SystemOk, Next, Enabled;
    if steps == [] {
      InitOk(v2, queueLimit);
    } else {
      RunKeeps(v2, queueLimit, steps[..|steps| - 1]);
      NextKeeps(Run(v2, queueLimit, steps[..|steps| - 1]).value, steps[|steps| - 1]);
    }
  }
}
