/** Three runs in which the client falls short of what it promises. */
module ChannelGaps {
  import opened Wrappers
  import opened ClientStates
  import opened Mailboxes
  import opened Channels
  import opened ChannelProtocol

  const ACCEPTED := Body(true, StatusOk, true)
  const REFUSED := Body(true, StatusError, true)
  const JOINED_OPERATION := Operation(JoinOperation, 0, 1, Succeeded, Finished)

  /** The context while the first connection is up. */
  function Up(refs: nat): Context {
    Context(true, 10, Connected, Some(0), 1, false, false, true, refs)
  }

  /** A channel named "room" on the first connection. */
  function Room(state: ChannelState, cause: Option<Cause>, established: bool, joinRef: Ref, ready: Future,
                operations: map<Ref, Operation>, installed: seq<Ref>): Channel {
    Channel("room", true, state, cause, established, state == Left, true, Some(0), 1, joinRef, ready, ready != Pending,
            false, None, Pending, false, false, false, {}, operations, None, NoRecovery, false, NoLeaver, NoLoss,
            WaitingForMessage, EmptyMailbox(), None, installed, 0, false)
  }

  function Joining1(submitted: bool, outcome: Future, send: SendStage): Channel {
    Room(Joining, None, false, 1, Pending, map[1 := Operation(JoinOperation, 0, 1, outcome, send)], []).(
      joiner := Some(1), joinSubmitted := submitted)
  }

  function JoinedRoom(): Channel {
    Room(Joined, Some(Accepted), true, 1, Succeeded, map[1 := JOINED_OPERATION], [1])
  }

  /** One channel, one connection, no pass. */
  function Client(x: Context, c: Channel, owners: seq<nat>, wire: set<(ConnectionId, Ref)>, answers: set<Answer>): System {
    System(x, [c], NoPass, None, map[1 := 0], 1, owners, wire, answers)
  }

  /** `steps` is possible with protocol V2 and room for ten messages, and ends in `s`. */
  predicate Runs(steps: seq<Step>, s: System) {
    Run(true, 10, steps) == Some(s)
  }

  lemma Extend(steps: seq<Step>, s: System, e: Step)
    requires Runs(steps, s) && Enabled(s, e)
    ensures Runs(steps + [e], Next(s, e))
  {
    hide Next, Enabled;
    assert (steps + [e])[..|steps + [e]| - 1] == steps;
  }

  /** An action that generates no ref and submits no frame. */
  lemma Acts(steps: seq<Step>, x: Context, c: Channel, owners: seq<nat>, wire: set<(ConnectionId, Ref)>, answers: set<Answer>,
             a: Action, d: Channel)
    requires Runs(steps, Client(x, c, owners, wire, answers))
    requires ActionEnabled(x, Uninvolved, c, a) && !a.JoinCall? && !a.Receive?
    requires !Generates(x, c, a) && !(a.SendStarts? && Submits(x, c, a.ref)) && Act(x, c, a) == d
    ensures Runs(steps + [At(0, a)], Client(x, d, owners, wire, answers))
  {
    hide Act, ActionEnabled, Generates, Submits, Run;
    Extend(steps, Client(x, c, owners, wire, answers), At(0, a));
    assert Next(Client(x, c, owners, wire, answers), At(0, a)) == Client(x, d, owners, wire, answers);
  }

  lemma ActsGenerating(steps: seq<Step>, x: Context, c: Channel, owners: seq<nat>, wire: set<(ConnectionId, Ref)>,
                       answers: set<Answer>, a: Action, d: Channel)
    requires Runs(steps, Client(x, c, owners, wire, answers))
    requires ActionEnabled(x, Uninvolved, c, a) && !a.Receive? && !a.SendStarts? && (a.JoinCall? ==> !c.registered)
    requires Generates(x, c, a) && Act(x, c, a) == d
    ensures Runs(steps + [At(0, a)], Client(x.(refs := x.refs + 1), d, owners + [0], wire, answers))
  {
    hide Act, ActionEnabled, Generates, Submits, Run;
    Extend(steps, Client(x, c, owners, wire, answers), At(0, a));
    assert Next(Client(x, c, owners, wire, answers), At(0, a)) == Client(x.(refs := x.refs + 1), d, owners + [0], wire, answers);
  }

  lemma ActsSending(steps: seq<Step>, x: Context, c: Channel, owners: seq<nat>, wire: set<(ConnectionId, Ref)>,
                    answers: set<Answer>, r: Ref, d: Channel)
    requires Runs(steps, Client(x, c, owners, wire, answers))
    requires ActionEnabled(x, Uninvolved, c, SendStarts(r)) && r in c.operations && Submits(x, c, r)
    requires c.operations[r].connection == 0 && Act(x, c, SendStarts(r)) == d
    ensures Runs(steps + [At(0, SendStarts(r))], Client(x, d, owners, wire + {(0, r)}, answers))
  {
    hide Act, ActionEnabled, Submits, Run;
    Extend(steps, Client(x, c, owners, wire, answers), At(0, SendStarts(r)));
    assert Next(Client(x, c, owners, wire, answers), At(0, SendStarts(r))) == Client(x, d, owners, wire + {(0, r)}, answers);
  }

  lemma ActsReceiving(steps: seq<Step>, x: Context, c: Channel, owners: seq<nat>, wire: set<(ConnectionId, Ref)>,
                      answers: set<Answer>, m: Message, d: Channel)
    requires Runs(steps, Client(x, c, owners, wire, answers))
    requires ActionEnabled(x, Uninvolved, c, Receive(1, m, true)) && Act(x, c, Receive(1, m, true)) == d
    requires m.event.ReplyEvent? && m.ref.Some? ==> Answer(0, m.ref.value, m.event.body) in answers
    ensures Runs(steps + [At(0, Receive(1, m, true))], Client(x, d, owners, wire, answers))
  {
    hide Act, ActionEnabled, Submits, Run;
    Extend(steps, Client(x, c, owners, wire, answers), At(0, Receive(1, m, true)));
    assert Next(Client(x, c, owners, wire, answers), At(0, Receive(1, m, true))) == Client(x, d, owners, wire, answers);
  }

  lemma ServerAnswers(steps: seq<Step>, x: Context, c: Channel, owners: seq<nat>, wire: set<(ConnectionId, Ref)>,
                      answers: set<Answer>, r: Ref, body: Body)
    requires Runs(steps, Client(x, c, owners, wire, answers)) && (0, r) in wire
    ensures Runs(steps + [Answers(0, r, body)], Client(x, c, owners, wire, answers + {Answer(0, r, body)}))
  {
    hide Run;
    Extend(steps, Client(x, c, owners, wire, answers), Answers(0, r, body));
  }

  // A channel joins

  const OPENED := [Open("room", true), Adopt, PassOptional]

  lemma RoomOpens()
    ensures Runs(OPENED, Client(Up(0), NewChannel("room", true), [], {}, {}))
  {
    hide NewChannel;
    var s1 := Init(true, 10).(channels := [NewChannel("room", true)]);
    Extend([], Init(true, 10), Open("room", true));
    assert Next(Init(true, 10), Open("room", true)) == s1;
    Extend([Open("room", true)], s1, Adopt);
    RoomAdopted();
  }

  lemma RoomAdopted()
    requires
      var s1 := Init(true, 10).(channels := [NewChannel("room", true)]);
      Runs([Open("room", true), Adopt], Next(s1, Adopt))
    ensures Runs(OPENED, Client(Up(0), NewChannel("room", true), [], {}, {}))
  {
    hide Run;
    var s1 := Init(true, 10).(channels := [NewChannel("room", true)]);
    var s2 := Client(Up(0), NewChannel("room", true), [], {}, {}).(pass := Pass({}, {}, Between));
    assert Registered(s1, true) == {} && Registered(s1, false) == {};
    assert Next(s1, Adopt) == s2;
    Extend([Open("room", true), Adopt], s2, PassOptional);
    assert Next(s2, PassOptional).channels == s2.channels;
    assert [Open("room", true), Adopt] + [PassOptional] == OPENED;
  }

  const REQUESTED := OPENED + [At(0, JoinCall(true, true))] + [At(0, SendStarts(1))] + [At(0, WriteCompletes(1))]

  lemma JoinBegins()
    ensures ActionEnabled(Up(0), Uninvolved, NewChannel("room", true), JoinCall(true, true))
    ensures Act(Up(0), NewChannel("room", true), JoinCall(true, true)) == Joining1(false, Pending, Scheduled)
    ensures !NewChannel("room", true).registered && Generates(Up(0), NewChannel("room", true), JoinCall(true, true))
  {
  }

  lemma JoinIsSent()
    ensures
      var c := Joining1(false, Pending, Scheduled);
      && ActionEnabled(Up(1), Uninvolved, c, SendStarts(1)) && 1 in c.operations && Submits(Up(1), c, 1)
      && c.operations[1].connection == 0 && Act(Up(1), c, SendStarts(1)) == Joining1(true, Pending, Writing)
  {
    var c := Joining1(false, Pending, Scheduled);
    assert c.operations[1 := c.operations[1].(send := Writing)] == Joining1(true, Pending, Writing).operations;
  }

  lemma JoinIsWritten()
    ensures
      var c := Joining1(true, Pending, Writing);
      && ActionEnabled(Up(1), Uninvolved, c, WriteCompletes(1)) && !Generates(Up(1), c, WriteCompletes(1))
      && Act(Up(1), c, WriteCompletes(1)) == Joining1(true, Pending, Finished)
  {
    var c := Joining1(true, Pending, Writing);
    assert c.operations[1 := c.operations[1].(send := Finished)] == Joining1(true, Pending, Finished).operations;
  }

  lemma RoomRequests()
    ensures Runs(REQUESTED, Client(Up(1), Joining1(true, Pending, Finished), [0], {(0, 1)}, {}))
  {
    hide Act, ActionEnabled, Joining1, Submits, NewChannel, Client, Generates, Runs;
    RoomOpens();
    JoinBegins();
    ActsGenerating(OPENED, Up(0), NewChannel("room", true), [], {}, {}, JoinCall(true, true), Joining1(false, Pending, Scheduled));
    JoinIsSent();
    var steps := OPENED + [At(0, JoinCall(true, true))];
    assert [] + [0] == [0] && {} + {(0, 1)} == {(0, 1)};
    assert Up(0).(refs := Up(0).refs + 1) == Up(1);
    ActsSending(steps, Up(1), Joining1(false, Pending, Scheduled), [0], {}, {}, 1, Joining1(true, Pending, Writing));
    JoinIsWritten();
    Acts(steps + [At(0, SendStarts(1))], Up(1), Joining1(true, Pending, Writing), [0], {(0, 1)}, {}, WriteCompletes(1),
         Joining1(true, Pending, Finished));
  }

  const JOIN_ACK := Message(ReplyEvent(ACCEPTED), Some(1), Some(1))
  const JOINED := REQUESTED + [Answers(0, 1, ACCEPTED)] + [At(0, Receive(1, JOIN_ACK, true))] + [At(0, JoinerResumes)]
  const ACKS := {Answer(0, 1, ACCEPTED)}

  function AckedRoom(): Channel {
    JoinedRoom().(joiner := Some(1))
  }

  lemma JoinIsAcked()
    ensures
      var c := Joining1(true, Pending, Finished);
      ActionEnabled(Up(1), Uninvolved, c, Receive(1, JOIN_ACK, true)) && Act(Up(1), c, Receive(1, JOIN_ACK, true)) == AckedRoom()
  {
    var c := Joining1(true, Pending, Finished);
    assert HandleControl(Up(1), c, JOIN_ACK, true) == (HandleJoinReply(Up(1), c, ACCEPTED, true), true);
    assert c.operations[1 := JOINED_OPERATION] == AckedRoom().operations;
  }

  lemma JoinerReturns()
    ensures
      && ActionEnabled(Up(1), Uninvolved, AckedRoom(), JoinerResumes) && !Generates(Up(1), AckedRoom(), JoinerResumes)
      && Act(Up(1), AckedRoom(), JoinerResumes) == JoinedRoom()
  {
  }

  lemma RoomJoins()
    ensures Runs(JOINED, Client(Up(1), JoinedRoom(), [0], {(0, 1)}, ACKS))
  {
    hide Act, ActionEnabled, Joining1, Submits, Client, Generates, Runs, AckedRoom, JoinedRoom;
    RoomRequests();
    ServerAnswers(REQUESTED, Up(1), Joining1(true, Pending, Finished), [0], {(0, 1)}, {}, 1, ACCEPTED);
    assert {} + {Answer(0, 1, ACCEPTED)} == ACKS;
    JoinIsAcked();
    var steps := REQUESTED + [Answers(0, 1, ACCEPTED)];
    ActsReceiving(steps, Up(1), Joining1(true, Pending, Finished), [0], {(0, 1)}, ACKS, JOIN_ACK, AckedRoom());
    JoinerReturns();
    Acts(steps + [At(0, Receive(1, JOIN_ACK, true))], Up(1), AckedRoom(), [0], {(0, 1)}, ACKS, JoinerResumes, JoinedRoom());
  }

  // Routing stops: a REJOINING channel without an owner while the client is still connected

  lemma RoutingStopsOnRoom()
    ensures
      var s := Client(Up(1), JoinedRoom(), [0], {(0, 1)}, ACKS);
      Enabled(s, RoutingStops) && Next(s, RoutingStops) == Client(
        Up(1).(routing := false),
        Room(Rejoining, Some(Transport), true, 1, Failed(SocketFailure), map[1 := JOINED_OPERATION], [1]),
        [0], {(0, 1)}, ACKS)
  {
    var x, c := Up(1), JoinedRoom();
    var d := Room(Rejoining, Some(Transport), true, 1, Failed(SocketFailure), map[1 := JOINED_OPERATION], [1]);
    assert FailOutcomes(SettleOutcome(c.operations, 1, Failed(SocketFailure)), {}, SocketFailure) == d.operations;
    assert FailPending(x, c) == d;
    assert Each([c], c => FailPending(x, c)) == [d];
  }

  /** Between the end of the routing task and `_cleanup_connection` the client still counts as
      connected, and an established channel waits for nobody but the supervisor. */
  lemma StrandedUntilCleanup()
    ensures
      exists steps, s :: Runs(steps, s) && IsConnected(s.client) && s.pass.NoPass? && |s.channels| == 1
        && s.channels[0].registered && s.channels[0].state == Rejoining && s.channels[0].recovery.NoRecovery?
  {
    hide Act, Runs, Next, Enabled;
    RoomJoins();
    RoutingStopsOnRoom();
    Extend(JOINED, Client(Up(1), JoinedRoom(), [0], {(0, 1)}, ACKS), RoutingStops);
  }

  // A stalled push write loses a channel that the server never refused

  const CRASH := Message(ErrorEvent, None, Some(1))
  const CRASHED := Failed(ChannelFailure(Crashed))

  function PushOp(outcome: Future, send: SendStage): Operation {
    Operation(PushOperation, 0, 1, outcome, send)
  }

  function PushingRoom(send: SendStage): Channel {
    Room(Joined, Some(Accepted), true, 1, Succeeded, map[1 := JOINED_OPERATION, 2 := PushOp(Pending, send)], [1]).(pushes := {2})
  }

  /** Crashed while the push was being written. */
  function CrashedRoom(recovery: Recovery, restart: bool): Channel {
    Room(Rejoining, Some(Crash), true, 1, CRASHED, map[1 := JOINED_OPERATION, 2 := PushOp(CRASHED, Writing)], [1]).(
      terminal := true, recovery := recovery, restartRequested := restart)
  }

  function StalledRoom(): Channel {
    Room(Rejoining, Some(Transport), true, 1, Failed(SocketFailure), map[1 := JOINED_OPERATION, 2 := PushOp(CRASHED, Writing)], [1]).(
      terminal := true, recovery := StoppingProcessor(1), restartRequested := true)
  }

  const STALLED_CONTEXT := Context(true, 10, Reconnecting, Some(0), 1, false, true, true, 2)

  function RejoiningRoom(state: ChannelState, cause: Option<Cause>, ready: Future, send: SendStage): Channel {
    Room(state, cause, true, 3, ready,
         map[1 := JOINED_OPERATION, 2 := PushOp(CRASHED, Writing), 3 := Operation(JoinOperation, 0, 3, ready, send)], [1]).(
      joinSubmitted := false, recovery := AwaitingRejoin(1, 3))
  }

  const NOT_CURRENT := Failed(ChannelFailure(NotCurrent))

  function LostRoom(): Channel {
    RejoiningRoom(Left, Some(Configuration), NOT_CURRENT, Finished).(
      recovery := NoRecovery, loss := LossScheduled, leftBy := Some((Configuration, ChannelFailure(NotCurrent))))
  }

  lemma PushBegins()
    ensures
      && ActionEnabled(Up(1), Uninvolved, JoinedRoom(), PushCall) && Generates(Up(1), JoinedRoom(), PushCall)
      && Act(Up(1), JoinedRoom(), PushCall) == PushingRoom(Scheduled)
  {
    assert JoinedRoom().operations[2 := PushOp(Pending, Scheduled)] == PushingRoom(Scheduled).operations;
    assert {} + {2} == {2};
  }

  lemma PushIsSent()
    ensures
      var c := PushingRoom(Scheduled);
      && ActionEnabled(Up(2), Uninvolved, c, SendStarts(2)) && 2 in c.operations && Submits(Up(2), c, 2)
      && c.operations[2].connection == 0 && Act(Up(2), c, SendStarts(2)) == PushingRoom(Writing)
  {
    var c := PushingRoom(Scheduled);
    assert c.operations[2 := c.operations[2].(send := Writing)] == PushingRoom(Writing).operations;
  }

  lemma PushCrashes()
    ensures
      var c := PushingRoom(Writing);
      && ActionEnabled(Up(2), Uninvolved, c, Receive(1, CRASH, true))
      && Act(Up(2), c, Receive(1, CRASH, true)) == CrashedRoom(Backoff(1), false)
  {
    var x, c := Up(2), PushingRoom(Writing);
    assert FailOutcomes(SettleOutcome(c.operations, 1, CRASHED), {2}, ChannelFailure(Crashed)) == CrashedRoom(NoRecovery, false).operations;
    assert Transition(x, Observe(c), Crash, ChannelFailure(Crashed)) == CrashedRoom(NoRecovery, false);
    assert StartRecovery(x, CrashedRoom(NoRecovery, false), None) == CrashedRoom(Backoff(1), false);
    assert HandleControl(x, c, CRASH, true) == (HandleLifecycle(x, c, CRASH), true);
  }

  lemma CrashedWakes()
    ensures
      var c := CrashedRoom(Backoff(1), false);
      && ActionEnabled(Up(2), Uninvolved, c, RecoveryWakes) && !Generates(Up(2), c, RecoveryWakes)
      && Act(Up(2), c, RecoveryWakes) == CrashedRoom(StoppingProcessor(1), true)
  {
  }

  lemma WriteStalls()
    ensures
      var s := Client(Up(2), CrashedRoom(StoppingProcessor(1), true), [0, 0], {(0, 1), (0, 2)}, ACKS);
      && Enabled(s, Expires(0, 2))
      && Next(s, Expires(0, 2)) == Client(STALLED_CONTEXT, StalledRoom(), [0, 0], {(0, 1), (0, 2)}, ACKS)
  {
    var x, c := Up(2), CrashedRoom(StoppingProcessor(1), true);
    assert Settle(c, 2, Failed(ChannelFailure(DeadlineExpired))) == c;
    assert FailOutcomes(SettleOutcome(c.operations, 1, Failed(SocketFailure)), {}, SocketFailure) == StalledRoom().operations;
    assert FailPending(x, c) == StalledRoom();
    assert Each([c], c => FailPending(x, c)) == [StalledRoom()];
    assert [c][0 := c] == [c];
  }

  lemma StalledRejoins()
    ensures
      var x, c := STALLED_CONTEXT, StalledRoom();
      && ActionEnabled(x, Uninvolved, c, RecoveryRestarts(true)) && Generates(x, c, RecoveryRestarts(true))
      && Act(x, c, RecoveryRestarts(true)) == RejoiningRoom(Rejoining, None, Pending, Scheduled)
  {
    var x, c := STALLED_CONTEXT, StalledRoom();
    assert c.operations[3 := Operation(JoinOperation, 0, 3, Pending, Scheduled)] == RejoiningRoom(Rejoining, None, Pending, Scheduled).operations;
    assert Drain(c.mail) == EmptyMailbox();
  }

  lemma RejoinIsNotCurrent()
    ensures
      var x, c := STALLED_CONTEXT.(refs := 3), RejoiningRoom(Rejoining, None, Pending, Scheduled);
      && ActionEnabled(x, Uninvolved, c, SendStarts(3)) && 3 in c.operations && !Submits(x, c, 3)
      && !Generates(x, c, SendStarts(3))
      && Act(x, c, SendStarts(3)) == RejoiningRoom(Rejoining, None, NOT_CURRENT, Finished)
  {
    var c := RejoiningRoom(Rejoining, None, Pending, Scheduled);
    assert SettleOutcome(FinishSend(c, 3).operations, 3, NOT_CURRENT) == RejoiningRoom(Rejoining, None, NOT_CURRENT, Finished).operations;
  }

  lemma RoomIsLost()
    ensures
      var x, c := STALLED_CONTEXT.(refs := 3), RejoiningRoom(Rejoining, None, NOT_CURRENT, Finished);
      && ActionEnabled(x, Uninvolved, c, RecoveryResumes) && !Generates(x, c, RecoveryResumes)
      && Act(x, c, RecoveryResumes) == LostRoom()
  {
    var x, c := STALLED_CONTEXT.(refs := 3), RejoiningRoom(Rejoining, None, NOT_CURRENT, Finished);
    assert FailOutcomes(SettleOutcome(c.operations, 3, NOT_CURRENT), {}, ChannelFailure(NotCurrent)) == c.operations;
    assert JoinFailed(x, c, ChannelFailure(NotCurrent)) == Transition(x, c, Configuration, ChannelFailure(NotCurrent));
  }

  const PUSHED := JOINED + [At(0, PushCall)] + [At(0, SendStarts(2))]
  const PUSH_CRASHED := PUSHED + [At(0, Receive(1, CRASH, true))] + [At(0, RecoveryWakes)]
  const PUSH_STALLED := PUSH_CRASHED + [Expires(0, 2)]
  const PUSH_LOST := PUSH_STALLED + [At(0, RecoveryRestarts(true))] + [At(0, SendStarts(3))] + [At(0, RecoveryResumes)]

  lemma RoomPushes()
    ensures Runs(PUSHED, Client(Up(2), PushingRoom(Writing), [0, 0], {(0, 1), (0, 2)}, ACKS))
  {
    hide Act, ActionEnabled, Submits, Client, Generates, Runs, JoinedRoom, PushingRoom;
    RoomJoins();
    PushBegins();
    ActsGenerating(JOINED, Up(1), JoinedRoom(), [0], {(0, 1)}, ACKS, PushCall, PushingRoom(Scheduled));
    assert Up(1).(refs := Up(1).refs + 1) == Up(2) && [0] + [0] == [0, 0] && {(0, 1)} + {(0, 2)} == {(0, 1), (0, 2)};
    PushIsSent();
    ActsSending(JOINED + [At(0, PushCall)], Up(2), PushingRoom(Scheduled), [0, 0], {(0, 1)}, ACKS, 2, PushingRoom(Writing));
  }

  lemma RoomStalls()
    ensures Runs(PUSH_STALLED, Client(STALLED_CONTEXT, StalledRoom(), [0, 0], {(0, 1), (0, 2)}, ACKS))
  {
    hide Act, ActionEnabled, Submits, Client, Generates, Runs, PushingRoom, CrashedRoom, StalledRoom, Next, Enabled;
    RoomPushes();
    PushCrashes();
    ActsReceiving(PUSHED, Up(2), PushingRoom(Writing), [0, 0], {(0, 1), (0, 2)}, ACKS, CRASH, CrashedRoom(Backoff(1), false));
    CrashedWakes();
    Acts(PUSHED + [At(0, Receive(1, CRASH, true))], Up(2), CrashedRoom(Backoff(1), false), [0, 0], {(0, 1), (0, 2)}, ACKS,
         RecoveryWakes, CrashedRoom(StoppingProcessor(1), true));
    WriteStalls();
    Extend(PUSH_CRASHED, Client(Up(2), CrashedRoom(StoppingProcessor(1), true), [0, 0], {(0, 1), (0, 2)}, ACKS), Expires(0, 2));
  }

  lemma RoomIsLostAtLast()
    ensures Runs(PUSH_LOST, Client(STALLED_CONTEXT.(refs := 3), LostRoom(), [0, 0, 0], {(0, 1), (0, 2)}, ACKS))
  {
    hide Act, ActionEnabled, Submits, Client, Generates, Runs, StalledRoom, RejoiningRoom, LostRoom;
    RoomStalls();
    StalledRejoins();
    var wire := {(0, 1), (0, 2)};
    ActsGenerating(PUSH_STALLED, STALLED_CONTEXT, StalledRoom(), [0, 0], wire, ACKS, RecoveryRestarts(true),
                   RejoiningRoom(Rejoining, None, Pending, Scheduled));
    assert [0, 0] + [0] == [0, 0, 0] && STALLED_CONTEXT.refs + 1 == 3;
    var x := STALLED_CONTEXT.(refs := 3);
    RejoinIsNotCurrent();
    var steps := PUSH_STALLED + [At(0, RecoveryRestarts(true))];
    Acts(steps, x, RejoiningRoom(Rejoining, None, Pending, Scheduled), [0, 0, 0], wire, ACKS, SendStarts(3),
         RejoiningRoom(Rejoining, None, NOT_CURRENT, Finished));
    RoomIsLost();
    Acts(steps + [At(0, SendStarts(3))], x, RejoiningRoom(Rejoining, None, NOT_CURRENT, Finished), [0, 0, 0], wire, ACKS,
         RecoveryResumes, LostRoom());
  }

  /** A push whose write stalled fails the send session; a rejoin started before the socket is
      replaced is then refused by that session and taken for a configuration failure: the channel
      is LEFT and its loss task scheduled, though every answer the server gave was an ok. */
  lemma StalledWriteLosesChannel()
    ensures
      exists steps, s :: Runs(steps, s) && |s.channels| == 1 && (forall a :: a in s.answers ==> a.body == ACCEPTED)
        && s.channels[0].state == Left && s.channels[0].loss.LossScheduled?
        && s.channels[0].leftBy == Some((Configuration, ChannelFailure(NotCurrent)))
  {
    hide Act, Runs, Next, Enabled;
    RoomIsLostAtLast();
  }

  // A refused rejoin whose recovery is cancelled before it resumes keeps its name

  const REJOIN_REFUSAL := Message(ReplyEvent(REFUSED), Some(2), Some(2))
  const REFUSED_FUTURE := Failed(ChannelFailure(JoinRefused))
  const BOTH := {Answer(0, 1, ACCEPTED), Answer(0, 2, REFUSED)}

  function IdleCrash(recovery: Recovery, restart: bool): Channel {
    Room(Rejoining, Some(Crash), true, 1, CRASHED, map[1 := JOINED_OPERATION], [1]).(
      terminal := true, recovery := recovery, restartRequested := restart)
  }

  function Retrying(submitted: bool, send: SendStage): Channel {
    Room(Rejoining, None, true, 2, Pending, map[1 := JOINED_OPERATION, 2 := Operation(JoinOperation, 0, 2, Pending, send)], [1]).(
      joinSubmitted := submitted, recovery := AwaitingRejoin(1, 2))
  }

  function RefusedRoom(unsubscribed: Future, recovery: Recovery, cancelled: bool): Channel {
    Room(Left, Some(Rejected), true, 2, REFUSED_FUTURE,
         map[1 := JOINED_OPERATION, 2 := Operation(JoinOperation, 0, 2, REFUSED_FUTURE, Finished)], [1]).(
      terminal := true, unsubscribed := unsubscribed, recovery := recovery, recoveryCancelled := cancelled,
      leftBy := Some((Rejected, ChannelFailure(JoinRefused))), abandoned := recovery.NoRecovery?)
  }

  lemma IdleCrashes()
    ensures
      && ActionEnabled(Up(1), Uninvolved, JoinedRoom(), Receive(1, CRASH, true))
      && Act(Up(1), JoinedRoom(), Receive(1, CRASH, true)) == IdleCrash(Backoff(1), false)
  {
    var x, c := Up(1), JoinedRoom();
    assert FailOutcomes(SettleOutcome(c.operations, 1, CRASHED), {}, ChannelFailure(Crashed)) == IdleCrash(NoRecovery, false).operations;
    assert Transition(x, Observe(c), Crash, ChannelFailure(Crashed)) == IdleCrash(NoRecovery, false);
    assert StartRecovery(x, IdleCrash(NoRecovery, false), None) == IdleCrash(Backoff(1), false);
    assert HandleControl(x, c, CRASH, true) == (HandleLifecycle(x, c, CRASH), true);
  }

  lemma IdleWakes()
    ensures
      var c := IdleCrash(Backoff(1), false);
      && ActionEnabled(Up(1), Uninvolved, c, RecoveryWakes) && !Generates(Up(1), c, RecoveryWakes)
      && Act(Up(1), c, RecoveryWakes) == IdleCrash(StoppingProcessor(1), true)
  {
  }

  lemma IdleRejoins()
    ensures
      var x, c := Up(1), IdleCrash(StoppingProcessor(1), true);
      && ActionEnabled(x, Uninvolved, c, RecoveryRestarts(true)) && Generates(x, c, RecoveryRestarts(true))
      && Act(x, c, RecoveryRestarts(true)) == Retrying(false, Scheduled)
  {
    var c := IdleCrash(StoppingProcessor(1), true);
    assert c.operations[2 := Operation(JoinOperation, 0, 2, Pending, Scheduled)] == Retrying(false, Scheduled).operations;
    assert Drain(c.mail) == EmptyMailbox();
  }

  lemma RetryIsSent()
    ensures
      var c := Retrying(false, Scheduled);
      && ActionEnabled(Up(2), Uninvolved, c, SendStarts(2)) && 2 in c.operations && Submits(Up(2), c, 2)
      && c.operations[2].connection == 0 && Act(Up(2), c, SendStarts(2)) == Retrying(true, Writing)
  {
    var c := Retrying(false, Scheduled);
    assert c.operations[2 := c.operations[2].(send := Writing)] == Retrying(true, Writing).operations;
  }

  lemma RetryIsWritten()
    ensures
      var c := Retrying(true, Writing);
      && ActionEnabled(Up(2), Uninvolved, c, WriteCompletes(2)) && !Generates(Up(2), c, WriteCompletes(2))
      && Act(Up(2), c, WriteCompletes(2)) == Retrying(true, Finished)
  {
    var c := Retrying(true, Writing);
    assert c.operations[2 := c.operations[2].(send := Finished)] == Retrying(true, Finished).operations;
  }

  lemma RetryIsRefused()
    ensures
      var c := Retrying(true, Finished);
      && ActionEnabled(Up(2), Uninvolved, c, Receive(1, REJOIN_REFUSAL, true))
      && Act(Up(2), c, Receive(1, REJOIN_REFUSAL, true)) == RefusedRoom(Pending, AwaitingRejoin(1, 2), false)
  {
    var x, c := Up(2), Retrying(true, Finished);
    var d := RefusedRoom(Pending, AwaitingRejoin(1, 2), false);
    assert FailOutcomes(SettleOutcome(c.operations, 2, REFUSED_FUTURE), {}, ChannelFailure(JoinRefused)) == d.operations;
    assert Transition(x, Observe(c), Rejected, ChannelFailure(JoinRefused)) == d;
    assert HandleControl(x, c, REJOIN_REFUSAL, true) == (HandleJoinReply(x, c, REFUSED, true), true);
  }

  lemma RoutingStopsOnRefused()
    ensures
      var s := Client(Up(2), RefusedRoom(Pending, AwaitingRejoin(1, 2), false), [0, 0], {(0, 1), (0, 2)}, BOTH);
      var d := RefusedRoom(Failed(SocketFailure), AwaitingRejoin(1, 2), false);
      Enabled(s, RoutingStops) && Next(s, RoutingStops) == Client(Up(2).(routing := false), d, [0, 0], {(0, 1), (0, 2)}, BOTH)
  {
    var x, c := Up(2), RefusedRoom(Pending, AwaitingRejoin(1, 2), false);
    assert Each([c], c => FailPending(x, c)) == [RefusedRoom(Failed(SocketFailure), AwaitingRejoin(1, 2), false)];
  }

  lemma CleanupBeginsOnRefused()
    ensures
      var s := Client(Up(2).(routing := false), RefusedRoom(Failed(SocketFailure), AwaitingRejoin(1, 2), false), [0, 0],
                      {(0, 1), (0, 2)}, BOTH);
      var d := RefusedRoom(Failed(SocketFailure), AwaitingRejoin(1, 2), true);
      && Enabled(s, CleanupBegins)
      && Next(s, CleanupBegins)
         == Client(Disconnecting(Up(2)), d, [0, 0], {(0, 1), (0, 2)}, BOTH).(cleaning := Some(Some(0)))
  {
    var x, c := Up(2).(routing := false), RefusedRoom(Failed(SocketFailure), AwaitingRejoin(1, 2), false);
    assert Each([c], c => BeginDisconnect(x, c)) == [RefusedRoom(Failed(SocketFailure), AwaitingRejoin(1, 2), true)];
  }

  lemma RefusedIsCancelled()
    ensures
      var x, c := Disconnecting(Up(2)), RefusedRoom(Failed(SocketFailure), AwaitingRejoin(1, 2), true);
      var d := RefusedRoom(Failed(SocketFailure), NoRecovery, true);
      var s := Client(x, c, [0, 0], {(0, 1), (0, 2)}, BOTH).(cleaning := Some(Some(0)));
      && Enabled(s, At(0, RecoveryCancelled))
      && Next(s, At(0, RecoveryCancelled)) == Client(x, d, [0, 0], {(0, 1), (0, 2)}, BOTH).(cleaning := Some(Some(0)))
  {
    var x, c := Disconnecting(Up(2)), RefusedRoom(Failed(SocketFailure), AwaitingRejoin(1, 2), true);
    assert Act(x, c, RecoveryCancelled) == RefusedRoom(Failed(SocketFailure), NoRecovery, true);
  }

  lemma CleanupEndsOnRefused()
    ensures
      var x, c := Disconnecting(Up(2)), RefusedRoom(Failed(SocketFailure), NoRecovery, true);
      var s := Client(x, c, [0, 0], {(0, 1), (0, 2)}, BOTH).(cleaning := Some(Some(0)));
      Enabled(s, CleanupEnds) && Next(s, CleanupEnds) == Client(x, c, [0, 0], {(0, 1), (0, 2)}, BOTH)
  {
    var x, c := Disconnecting(Up(2)), RefusedRoom(Failed(SocketFailure), NoRecovery, true);
    assert EndCleanup(x, Some(0), c) == c;
    assert Each([c], c => EndCleanup(x, Some(0), c)) == [c];
  }

  const RETRIED := JOINED + [At(0, Receive(1, CRASH, true))] + [At(0, RecoveryWakes)] + [At(0, RecoveryRestarts(true))]
                   + [At(0, SendStarts(2))] + [At(0, WriteCompletes(2))]
  const TURNED_AWAY := RETRIED + [Answers(0, 2, REFUSED)] + [At(0, Receive(1, REJOIN_REFUSAL, true))]
  const CUT_OFF := TURNED_AWAY + [RoutingStops] + [CleanupBegins] + [At(0, RecoveryCancelled)] + [CleanupEnds]

  lemma RoomRetries()
    ensures Runs(RETRIED, Client(Up(2), Retrying(true, Finished), [0, 0], {(0, 1), (0, 2)}, ACKS))
  {
    hide Act, ActionEnabled, Submits, Client, Generates, Runs, JoinedRoom, IdleCrash, Retrying;
    RoomJoins();
    IdleCrashes();
    ActsReceiving(JOINED, Up(1), JoinedRoom(), [0], {(0, 1)}, ACKS, CRASH, IdleCrash(Backoff(1), false));
    IdleWakes();
    var crashed := JOINED + [At(0, Receive(1, CRASH, true))];
    Acts(crashed, Up(1), IdleCrash(Backoff(1), false), [0], {(0, 1)}, ACKS, RecoveryWakes, IdleCrash(StoppingProcessor(1), true));
    IdleRejoins();
    var woken := crashed + [At(0, RecoveryWakes)];
    ActsGenerating(woken, Up(1), IdleCrash(StoppingProcessor(1), true), [0], {(0, 1)}, ACKS, RecoveryRestarts(true),
                   Retrying(false, Scheduled));
    assert Up(1).(refs := Up(1).refs + 1) == Up(2) && [0] + [0] == [0, 0] && {(0, 1)} + {(0, 2)} == {(0, 1), (0, 2)};
    RetryIsSent();
    var restarted := woken + [At(0, RecoveryRestarts(true))];
    ActsSending(restarted, Up(2), Retrying(false, Scheduled), [0, 0], {(0, 1)}, ACKS, 2, Retrying(true, Writing));
    RetryIsWritten();
    Acts(restarted + [At(0, SendStarts(2))], Up(2), Retrying(true, Writing), [0, 0], {(0, 1), (0, 2)}, ACKS, WriteCompletes(2),
         Retrying(true, Finished));
  }

  lemma RoomIsRefused()
    ensures Runs(TURNED_AWAY, Client(Up(2), RefusedRoom(Pending, AwaitingRejoin(1, 2), false), [0, 0], {(0, 1), (0, 2)}, BOTH))
  {
    hide Act, ActionEnabled, Client, Runs, Retrying, RefusedRoom;
    RoomRetries();
    ServerAnswers(RETRIED, Up(2), Retrying(true, Finished), [0, 0], {(0, 1), (0, 2)}, ACKS, 2, REFUSED);
    assert ACKS + {Answer(0, 2, REFUSED)} == BOTH;
    RetryIsRefused();
    ActsReceiving(RETRIED + [Answers(0, 2, REFUSED)], Up(2), Retrying(true, Finished), [0, 0], {(0, 1), (0, 2)}, BOTH,
                  REJOIN_REFUSAL, RefusedRoom(Pending, AwaitingRejoin(1, 2), false));
  }

  lemma RoomIsCutOff()
    ensures Runs(CUT_OFF, Client(Disconnecting(Up(2)), RefusedRoom(Failed(SocketFailure), NoRecovery, true), [0, 0],
                                 {(0, 1), (0, 2)}, BOTH))
  {
    hide Client, Runs, Next, Enabled, RefusedRoom;
    var wire := {(0, 1), (0, 2)};
    RoomIsRefused();
    RoutingStopsOnRefused();
    Extend(TURNED_AWAY, Client(Up(2), RefusedRoom(Pending, AwaitingRejoin(1, 2), false), [0, 0], wire, BOTH), RoutingStops);
    CleanupBeginsOnRefused();
    var stopped := Client(Up(2).(routing := false), RefusedRoom(Failed(SocketFailure), AwaitingRejoin(1, 2), false), [0, 0], wire, BOTH);
    Extend(TURNED_AWAY + [RoutingStops], stopped, CleanupBegins);
    RefusedIsCancelled();
    var x := Disconnecting(Up(2));
    var cleaning := Client(x, RefusedRoom(Failed(SocketFailure), AwaitingRejoin(1, 2), true), [0, 0], wire, BOTH).(cleaning := Some(Some(0)));
    Extend(TURNED_AWAY + [RoutingStops] + [CleanupBegins], cleaning, At(0, RecoveryCancelled));
    CleanupEndsOnRefused();
    var cancelled := Client(x, RefusedRoom(Failed(SocketFailure), NoRecovery, true), [0, 0], wire, BOTH).(cleaning := Some(Some(0)));
    Extend(TURNED_AWAY + [RoutingStops] + [CleanupBegins] + [At(0, RecoveryCancelled)], cancelled, CleanupEnds);
  }

  /** The server refused a rejoin, then the connection closed before the recovery resumed: no task
      leaves the channel or reports its loss, and its name stays taken. */
  lemma CancelledRefusalKeepsName()
    ensures
      exists steps, s :: Runs(steps, s) && |s.channels| == 1 && s.client.connection.None? && s.cleaning.None?
        && s.channels[0].registered && s.channels[0].state == Left && s.channels[0].established
        && s.channels[0].leaver.NoLeaver? && s.channels[0].loss.NoLoss? && s.channels[0].recovery.NoRecovery?
        && s.channels[0].joiner.None?
  {
    hide Runs;
    RoomIsCutOff();
  }
}
