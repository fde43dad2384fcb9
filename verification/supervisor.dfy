/**
 * `_supervisor_loop`, the entry and `shutdown` as one state machine. A step is one stretch of code
 * between two awaits of the supervisor, the shutdown task or a caller; steps interleave freely.
 */
module Supervisors {
  import opened Wrappers
  import opened ClientStates

  type Socket = nat

  /** `code` is the close code the decider is told, if any. */
  datatype Event = Connecting | Connected(generation: nat) | Disconnected(code: Option<nat>) | ConnectFailed

  /** Where the supervisor is suspended. A cancelled one still closes its socket. `Closing` is `_cleanup_connection` on the socket it took. */
  datatype Supervisor =
    | Absent
    | LoopTop
    | Handshaking
    | Waiting
    | Rejoining
    | Notifying
    | Routing
    | Closing(socket: Option<Socket>, refused: bool)
    | Reporting
    | Ended

  /** Where the shutdown task is suspended. */
  datatype Shutdown = NotShutDown | StoppingSupervisor | ClosingConnection(socket: Option<Socket>) | LeavingChannels | Finished

  /** `initial_connection_future` */
  datatype Entry = NoEntry | Awaited | Succeeded | Failed | Abandoned

  /** `raised` records an invalid state transition. The histories: the number of sockets `_connect`
      returned, those closed, the events asked in this entry and whether one was refused, the
      settlings of the entry future and the sessions started. */
  datatype Client = Client(
    auto: bool,
    state: ClientState,
    shutdown: bool,
    connection: Option<Socket>,
    generation: nat,
    supervisor: Supervisor,
    stopping: Shutdown,
    entry: Entry,
    raised: bool,
    sockets: nat,
    shut: set<Socket>,
    asked: seq<Event>,
    refused: bool,
    settled: nat,
    sessions: nat)

  function NewClient(auto: bool): Client {
    Client(auto, Closed, false, None, 0, Absent, NotShutDown, NoEntry, false, 0, {}, [], false, 0, 0)
  }

  // Pieces

  /** `_transition_state` */
  function TransitionState(c: Client, next: ClientState): (d: Client)
    ensures d.auto == c.auto && d.asked == c.asked && d.shutdown == c.shutdown && d.supervisor == c.supervisor
    ensures d.sessions == c.sessions
  {
    var t := TransitionClientState(c.state, next);
    if t.None? then c.(raised := true) else c.(state := t.value)
  }

  /** `_settle_initial_connection` */
  function Settle(c: Client, success: bool): (d: Client)
    ensures d.auto == c.auto && d.asked == c.asked && d.shutdown == c.shutdown && d.supervisor == c.supervisor
    ensures d.state == c.state && d.sessions == c.sessions
  {
    if c.entry.Awaited? then c.(entry := if success then Succeeded else Failed, settled := c.settled + 1) else c
  }

  /** The decider is asked about an event; `goes` is whether it lets the client go on, `terminal`
      whether a stop carries a terminal error, which settles the entry. */
  function Ask(c: Client, e: Event, goes: bool, terminal: bool): (d: Client)
    ensures d.asked == c.asked + [e] && d.sessions == c.sessions && d.auto == c.auto && d.shutdown == c.shutdown
  {
    var asked := c.(asked := c.asked + [e], refused := c.refused || !goes);
    if !goes && terminal then Settle(asked, false) else asked
  }

  /** `_settle_supervisor_exit`: the supervisor ends. */
  function Exit(c: Client): (d: Client)
    ensures d.auto == c.auto && d.asked == c.asked && d.shutdown == c.shutdown && d.supervisor == Ended
  {
    var settled := Settle(c, false).(supervisor := Ended);
    if c.state != ShuttingDown then TransitionState(settled, Closed) else settled
  }

  /** The test at the top of the loop, and the gate before a handshake. */
  function Loop(c: Client, goes: bool, terminal: bool): Client {
    if c.shutdown then Exit(c)
    else
      var asked := if c.auto then Ask(c, Event.Connecting, goes, terminal) else c;
      if c.auto && !goes then Exit(asked)
      else asked.(supervisor := Handshaking)
  }

  /** `_retry_after_connect_failure` */
  function HandshakeFails(c: Client, goes: bool, terminal: bool): Client {
    if !c.auto then Exit(Settle(c, false))
    else if c.shutdown then Exit(c)
    else
      var asked := Ask(c, ConnectFailed, goes, terminal);
      if !goes then Exit(asked) else TransitionState(asked, Reconnecting).(supervisor := Waiting)
  }

  /** `_adopt_connection`, and `_start_session` up to its rejoins. */
  function Adopt(c: Client, goes: bool, terminal: bool): Client {
    var taken := c.(connection := Some(c.sockets), sockets := c.sockets + 1);
    if c.shutdown then Exit(taken)
    else
      var counted := taken.(generation := c.generation + 1);
      var asked := if c.auto then Ask(counted, Event.Connected(c.generation + 1), goes, terminal) else counted;
      if c.auto && !goes then asked.(connection := None, supervisor := Closing(Some(c.sockets), true))
      else TransitionState(asked, ClientState.Connected).(supervisor := Rejoining, sessions := c.sessions + 1)
  }

  /** `CloseDetails`: a forced close reports the code it received, which decides nothing. */
  datatype Close = Close(code: Option<nat>, forced: bool)

  /** `_end_session` once the socket is closed, then `_decide_reconnect`. */
  function DecideReconnect(c: Client, close: Close, goes: bool, terminal: bool): Client {
    if c.shutdown || !c.auto then Exit(c)
    else
      var asked := Ask(c, Disconnected(if close.forced then None else close.code), goes, terminal);
      if !goes then Exit(asked) else TransitionState(asked, Reconnecting).(supervisor := Waiting)
  }

  function Shut(c: Client, socket: Option<Socket>): Client {
    if socket.None? then c else c.(shut := c.shut + {socket.value})
  }

  /** `_request_stop` and the creation of the shutdown task. */
  function RequestStop(c: Client): Client {
    var moved := if c.state == ShuttingDown || c.state == Closed then c else TransitionState(c, ShuttingDown);
    moved.(shutdown := true, stopping := StoppingSupervisor)
  }

  /** `__aenter__` until it waits for the entry future. */
  function Enter(c: Client): Client {
    TransitionState(c.(shutdown := false, generation := 0, entry := Awaited, supervisor := LoopTop,
                       asked := [], refused := false, settled := 0, sessions := 0), ClientState.Connecting)
  }

  predicate Live(s: Supervisor) {
    !s.Absent? && !s.Ended?
  }

  predicate Stopping(s: Shutdown) {
    !s.NotShutDown? && !s.Finished?
  }

  // Steps

  datatype Step =
    | Enters
    | EntryCancelled
    | ShutdownCalled
    | Loops(goes: bool, terminal: bool)
    | HandshakeFailed(goes: bool, terminal: bool)
    | HandshakeSucceeded(goes: bool, terminal: bool)
    | WaitEnds
    | RejoinsEnd(notify: bool)
    | CallbackEnds
    | RoutingEnds
    | SupervisorClosed
    | Reported(close: Close, goes: bool, terminal: bool)
    | SendFails
    | SupervisorCancelled
    | SupervisorStopped
    | ShutdownClosed
    | ChannelsLeft

  /** The shutdown task, created later, starts after a new supervisor's first step. */
  predicate Enabled(c: Client, e: Step) {
    match e
    case Enters => c.state == Closed && !Stopping(c.stopping)
    case EntryCancelled => c.entry == Awaited
    case ShutdownCalled => !Stopping(c.stopping)
    case Loops(_, _) => c.supervisor == LoopTop
    case HandshakeFailed(_, _) => c.supervisor == Handshaking
    case HandshakeSucceeded(_, _) => c.supervisor == Handshaking
    case WaitEnds => c.supervisor == Waiting
    case RejoinsEnd(notify) => c.supervisor == Rejoining && (notify ==> c.generation > 1 && !c.shutdown)
    case CallbackEnds => c.supervisor == Notifying
    case RoutingEnds => c.supervisor == Routing
    case SupervisorClosed => c.supervisor.Closing?
    case Reported(_, _, _) => c.supervisor == Reporting
    case SendFails => c.connection.Some?
    case SupervisorCancelled => c.stopping == StoppingSupervisor && Live(c.supervisor) && c.supervisor != LoopTop
    case SupervisorStopped => c.stopping == StoppingSupervisor && !Live(c.supervisor)
    case ShutdownClosed => c.stopping.ClosingConnection?
    case ChannelsLeft => c.stopping == LeavingChannels
  }

  function Next(c: Client, e: Step): Client
    requires Enabled(c, e)
  {
    match e
    case Enters => Enter(c)
    case EntryCancelled => c.(entry := Abandoned)
    case ShutdownCalled => RequestStop(c)
    case Loops(goes, terminal) => Loop(c, goes, terminal)
    case HandshakeFailed(goes, terminal) => HandshakeFails(c, goes, terminal)
    case HandshakeSucceeded(goes, terminal) => Adopt(c, goes, terminal)
    case WaitEnds => c.(supervisor := LoopTop)
    case RejoinsEnd(notify) => Settle(c, true).(supervisor := if notify then Notifying else Routing)
    case CallbackEnds => c.(supervisor := Routing)
    case RoutingEnds => c.(connection := None, supervisor := Closing(c.connection, false))
    case SupervisorClosed =>
      var closed := Shut(c, c.supervisor.socket);
      if c.supervisor.refused then Exit(closed) else closed.(supervisor := Reporting)
    case Reported(close, goes, terminal) => DecideReconnect(c, close, goes, terminal)
    case SendFails => if c.state == ClientState.Connected then TransitionState(c, Reconnecting) else c
    case SupervisorCancelled => Exit(if c.supervisor.Closing? then Shut(c, c.supervisor.socket) else c)
    case SupervisorStopped => c.(connection := None, stopping := ClosingConnection(c.connection))
    case ShutdownClosed => Shut(c, c.stopping.socket).(stopping := LeavingChannels)
    case ChannelsLeft => TransitionState(c, Closed).(stopping := Finished)
  }

  function Run(auto: bool, steps: seq<Step>): Option<Client> {
    if steps == [] then Some(NewClient(auto))
    else
      var before := Run(auto, steps[..|steps| - 1]);
      if before.Some? && Enabled(before.value, steps[|steps| - 1])
      then Some(Next(before.value, steps[|steps| - 1])) else None
  }

  // The decider's conversation: (Connecting (ConnectFailed | Connected Disconnected))*

  datatype Phase = Idle | Attempting | Up

  /** The phase after these events and the number of Connected among them, or None off the grammar. */
  function Parse(asked: seq<Event>): Option<(Phase, nat)> {
    if asked == [] then Some((Idle, 0))
    else
      var before := Parse(asked[..|asked| - 1]);
      if before.None? then None
      else match (before.value.0, asked[|asked| - 1])
           case (Idle, Connecting) => Some((Attempting, before.value.1))
           case (Attempting, ConnectFailed) => Some((Idle, before.value.1))
           case (Attempting, Connected(g)) => if g == before.value.1 + 1 then Some((Up, g)) else None
           case (Up, Disconnected(_)) => Some((Idle, before.value.1))
           case _ => None
  }

  lemma ParseNext(asked: seq<Event>, e: Event)
    requires Parse(asked).Some?
    ensures
      var (phase, count) := Parse(asked).value;
      Parse(asked + [e]) ==
        match (phase, e)
        case (Idle, Connecting) => Some((Attempting, count))
        case (Attempting, ConnectFailed) => Some((Idle, count))
        case (Attempting, Connected(g)) => if g == count + 1 then Some((Up, g)) else None
        case (Up, Disconnected(_)) => Some((Idle, count))
        case _ => None
  {
    assert (asked + [e])[..|asked + [e]| - 1] == asked;
  }

  /** Where the conversation stands while the supervisor goes on. */
  predicate PhaseOf(s: Supervisor, phase: Phase) {
    match s
    case LoopTop => phase == Idle
    case Waiting => phase == Idle
    case Handshaking => phase == Attempting
    case Rejoining => phase == Up
    case Notifying => phase == Up
    case Routing => phase == Up
    case Closing(_, _) => phase == Up
    case Reporting => phase == Up
    case _ => true
  }

  // The invariant

  predicate StateOk(c: Client) {
    && !c.raised
    && (c.shutdown ==> c.state == ShuttingDown || c.state == Closed)
    && (c.state == ShuttingDown ==> c.shutdown)
    && (Live(c.supervisor) ==> c.state != Closed)
    && (c.supervisor == Absent ==> c.state == Closed)
    && (Stopping(c.stopping) ==> c.shutdown)
    && (c.stopping == StoppingSupervisor || !Live(c.supervisor) || !c.shutdown)
    && (c.supervisor.Ended? && !Stopping(c.stopping) ==> c.state == Closed)
  }

  predicate SocketsOk(c: Client) {
    && (forall k :: 0 <= k < c.sockets ==>
          || k in c.shut || c.connection == Some(k)
          || (c.supervisor.Closing? && c.supervisor.socket == Some(k))
          || c.stopping == ClosingConnection(Some(k)))
    && (c.connection.Some? ==>
          || c.supervisor == Rejoining || c.supervisor == Notifying || c.supervisor == Routing
          || (c.supervisor == Ended && c.stopping == StoppingSupervisor))
    && (c.state == Closed ==> c.connection.None? && (c.stopping.ClosingConnection? ==> c.stopping.socket.None?))
  }

  predicate EntryOk(c: Client) {
    && c.settled == (if c.entry == Succeeded || c.entry == Failed then 1 else 0)
    && (c.entry == Awaited ==> Live(c.supervisor))
    && (c.entry == Succeeded ==> c.sessions >= 1)
    && (c.supervisor == Rejoining || c.supervisor == Notifying || c.supervisor == Routing ==> c.sessions >= 1)
  }

  predicate AskedOk(c: Client) {
    && (c.auto ==>
          && Parse(c.asked).Some? && Parse(c.asked).value.1 == c.generation
          && PhaseOf(c.supervisor, Parse(c.asked).value.0))
    && (!c.auto ==> c.asked == [])
    && (c.refused ==> !Live(c.supervisor) || (c.supervisor.Closing? && c.supervisor.refused))
  }

  predicate ClientOk(c: Client) {
    StateOk(c) && SocketsOk(c) && EntryOk(c) && AskedOk(c)
  }

  lemma ParseNothing()
    ensures Parse([]) == Some((Idle, 0))
  {
  }

  /** The supervisor may end here: no socket is its own to close. */
  lemma ExitOk(c: Client)
    requires StateOk(c) && SocketsOk(c) && EntryOk(c) && Live(c.supervisor) && !c.supervisor.Closing?
    requires c.connection.None? || c.stopping == StoppingSupervisor
    requires c.auto ==> Parse(c.asked).Some? && Parse(c.asked).value.1 == c.generation
    requires !c.auto ==> c.asked == []
    ensures ClientOk(Exit(c))
  {
    hide Parse;
  }

  lemma LoopsOk(c: Client, goes: bool, terminal: bool)
    requires ClientOk(c) && Enabled(c, Loops(goes, terminal))
    ensures ClientOk(Next(c, Loops(goes, terminal)))
  {
    hide Parse;
    if c.auto {
      ParseNext(c.asked, Event.Connecting);
    }
  }

  /** Asking the decider moves nothing but the conversation and, on a terminal stop, the entry. */
  lemma AskKeeps(c: Client, e: Event, goes: bool, terminal: bool)
    requires StateOk(c) && SocketsOk(c) && EntryOk(c)
    ensures
      var d := Ask(c, e, goes, terminal);
      && StateOk(d) && SocketsOk(d) && EntryOk(d) && d.supervisor == c.supervisor && d.connection == c.connection
      && d.generation == c.generation && d.stopping == c.stopping && d.state == c.state && d.refused == (c.refused || !goes)
  {
  }

  lemma RetryOk(c: Client)
    requires StateOk(c) && SocketsOk(c) && EntryOk(c) && Live(c.supervisor) && !c.supervisor.Closing?
    requires c.connection.None? && !c.shutdown && c.auto && !c.refused
    requires Parse(c.asked).Some? && Parse(c.asked).value == (Idle, c.generation)
    ensures ClientOk(TransitionState(c, Reconnecting).(supervisor := Waiting))
  {
    hide Parse;
  }

  lemma HandshakeFailedOk(c: Client, goes: bool, terminal: bool)
    requires ClientOk(c) && Enabled(c, HandshakeFailed(goes, terminal))
    ensures ClientOk(Next(c, HandshakeFailed(goes, terminal)))
  {
    hide Parse, Exit, TransitionState, Settle, StateOk, SocketsOk, EntryOk, Ask;
    HandshakePosture(c);
    if !c.auto {
      SettledOk(c);
      ExitOk(Settle(c, false));
    } else if c.shutdown {
      ExitOk(c);
    } else {
      ParseNext(c.asked, ConnectFailed);
      AskKeeps(c, ConnectFailed, goes, terminal);
      if goes {
        RetryOk(Ask(c, ConnectFailed, goes, terminal));
      } else {
        ExitOk(Ask(c, ConnectFailed, goes, terminal));
      }
    }
  }

  lemma HandshakePosture(c: Client)
    requires ClientOk(c) && (c.supervisor == Handshaking || c.supervisor == Reporting)
    ensures c.connection.None? && StateOk(c) && SocketsOk(c) && EntryOk(c) && !c.refused
  {
    hide Parse;
  }

  lemma SettledOk(c: Client)
    requires StateOk(c) && SocketsOk(c) && EntryOk(c)
    ensures
      var d := Settle(c, false);
      && StateOk(d) && SocketsOk(d) && EntryOk(d) && d.connection == c.connection && d.stopping == c.stopping
      && d.generation == c.generation
  {
  }

  /** A socket that arrives after the stop is left to the shutdown's own cleanup. */
  lemma LateSocketOk(c: Client)
    requires ClientOk(c) && c.supervisor == Handshaking && c.shutdown
    ensures ClientOk(Exit(c.(connection := Some(c.sockets), sockets := c.sockets + 1)))
  {
    hide Parse;
  }

  lemma RefusedAdoptionFrame(c: Client, terminal: bool)
    requires !c.shutdown && c.auto
    ensures
      var d := Adopt(c, false, terminal);
      && d.auto == c.auto && d.state == c.state && d.shutdown == c.shutdown && d.connection.None? && d.stopping == c.stopping
      && d.generation == c.generation + 1 && d.supervisor == Closing(Some(c.sockets), true) && d.raised == c.raised
      && d.sockets == c.sockets + 1 && d.shut == c.shut && d.asked == c.asked + [Event.Connected(c.generation + 1)]
      && d.refused && d.sessions == c.sessions
      && d.entry == (if terminal && c.entry == Awaited then Failed else c.entry)
      && d.settled == (if terminal && c.entry == Awaited then c.settled + 1 else c.settled)
  {
  }

  lemma AdoptionRefusedOk(c: Client, terminal: bool)
    requires ClientOk(c) && c.supervisor == Handshaking && !c.shutdown && c.auto
    ensures ClientOk(Adopt(c, false, terminal))
  {
    hide Parse, Adopt;
    RefusedAdoptionFrame(c, terminal);
    ParseNext(c.asked, Event.Connected(c.generation + 1));
  }

  lemma AdoptionFrame(c: Client, goes: bool, terminal: bool)
    requires !c.shutdown && (c.auto ==> goes) && c.state != Closed && c.state != ShuttingDown
    ensures
      var d := Adopt(c, goes, terminal);
      && d.auto == c.auto && d.state == ClientState.Connected && d.shutdown == c.shutdown && d.connection == Some(c.sockets)
      && d.stopping == c.stopping && d.generation == c.generation + 1 && d.supervisor == Rejoining && d.raised == c.raised
      && d.sockets == c.sockets + 1 && d.shut == c.shut && d.refused == c.refused && d.sessions == c.sessions + 1
      && d.asked == (if c.auto then c.asked + [Event.Connected(c.generation + 1)] else c.asked)
      && d.entry == c.entry && d.settled == c.settled
  {
  }

  lemma AdoptionOk(c: Client, goes: bool, terminal: bool)
    requires ClientOk(c) && c.supervisor == Handshaking && !c.shutdown && (c.auto ==> goes)
    ensures ClientOk(Adopt(c, goes, terminal))
  {
    hide Parse, Adopt;
    AdoptionFrame(c, goes, terminal);
    if c.auto {
      ParseNext(c.asked, Event.Connected(c.generation + 1));
    }
  }

  lemma HandshakeSucceededOk(c: Client, goes: bool, terminal: bool)
    requires ClientOk(c) && Enabled(c, HandshakeSucceeded(goes, terminal))
    ensures ClientOk(Next(c, HandshakeSucceeded(goes, terminal)))
  {
    hide ClientOk, Exit, Ask, TransitionState;
    if c.shutdown {
      LateSocketOk(c);
    } else if c.auto && !goes {
      AdoptionRefusedOk(c, terminal);
    } else {
      AdoptionOk(c, goes, terminal);
    }
  }

  lemma ReportedOk(c: Client, close: Close, goes: bool, terminal: bool)
    requires ClientOk(c) && Enabled(c, Reported(close, goes, terminal))
    ensures ClientOk(Next(c, Reported(close, goes, terminal)))
  {
    hide Parse, Exit, TransitionState, Settle, StateOk, SocketsOk, EntryOk, Ask;
    HandshakePosture(c);
    var event := Disconnected(if close.forced then None else close.code);
    if c.shutdown || !c.auto {
      ExitOk(c);
    } else {
      ParseNext(c.asked, event);
      AskKeeps(c, event, goes, terminal);
      if goes {
        RetryOk(Ask(c, event, goes, terminal));
      } else {
        ExitOk(Ask(c, event, goes, terminal));
      }
    }
  }

  lemma RefusalClosedOk(c: Client)
    requires ClientOk(c) && c.supervisor.Closing? && c.supervisor.refused
    ensures ClientOk(Exit(Shut(c, c.supervisor.socket)))
  {
    hide Parse;
  }

  lemma SessionClosedOk(c: Client)
    requires ClientOk(c) && c.supervisor.Closing? && !c.supervisor.refused
    ensures ClientOk(Shut(c, c.supervisor.socket).(supervisor := Reporting))
  {
    hide Parse;
  }

  lemma SupervisorClosedOk(c: Client)
    requires ClientOk(c) && Enabled(c, SupervisorClosed)
    ensures ClientOk(Next(c, SupervisorClosed))
  {
    hide ClientOk, Exit, Shut;
    if c.supervisor.refused {
      RefusalClosedOk(c);
    } else {
      SessionClosedOk(c);
    }
  }

  lemma SupervisorCancelledOk(c: Client)
    requires ClientOk(c) && Enabled(c, SupervisorCancelled)
    ensures ClientOk(Next(c, SupervisorCancelled))
  {
    if c.supervisor.Closing? {
      CancelledCleanupOk(c);
    } else {
      hide Parse, Exit;
      ExitOk(c);
    }
  }

  /** A supervisor cancelled in its cleanup still closes the socket. */
  lemma CancelledCleanupOk(c: Client)
    requires ClientOk(c) && c.supervisor.Closing? && c.stopping == StoppingSupervisor
    ensures ClientOk(Exit(Shut(c, c.supervisor.socket)))
  {
    hide Parse;
  }

  lemma CallsOk(c: Client, e: Step)
    requires ClientOk(c) && Enabled(c, e) && (e.Enters? || e.EntryCancelled? || e.ShutdownCalled?)
    ensures ClientOk(Next(c, e))
  {
    hide Parse;
    ParseNothing();
  }

  lemma OthersOk(c: Client, e: Step)
    requires ClientOk(c) && Enabled(c, e)
    requires e.WaitEnds? || e.RejoinsEnd? || e.CallbackEnds? || e.RoutingEnds?
    ensures ClientOk(Next(c, e))
  {
    hide Parse;
  }

  lemma ShutdownOk(c: Client, e: Step)
    requires ClientOk(c) && Enabled(c, e) && (e.SendFails? || e.SupervisorStopped?)
    ensures ClientOk(Next(c, e))
  {
    hide Parse;
  }

  lemma LastCleanupOk(c: Client, e: Step)
    requires ClientOk(c) && Enabled(c, e) && (e.ShutdownClosed? || e.ChannelsLeft?)
    ensures ClientOk(Next(c, e))
  {
    hide Parse;
  }

  lemma NextOk(c: Client, e: Step)
    requires ClientOk(c) && Enabled(c, e)
    ensures ClientOk(Next(c, e))
  {
    hide ClientOk, Next;
    match e
    case Loops(goes, terminal) => LoopsOk(c, goes, terminal);
    case HandshakeFailed(goes, terminal) => HandshakeFailedOk(c, goes, terminal);
    case HandshakeSucceeded(goes, terminal) => HandshakeSucceededOk(c, goes, terminal);
    case Reported(close, goes, terminal) => ReportedOk(c, close, goes, terminal);
    case SupervisorClosed => SupervisorClosedOk(c);
    case SupervisorCancelled => SupervisorCancelledOk(c);
    case SendFails => ShutdownOk(c, e);
    case SupervisorStopped => ShutdownOk(c, e);
    case ShutdownClosed => LastCleanupOk(c, e);
    case ChannelsLeft => LastCleanupOk(c, e);
    case Enters => CallsOk(c, e);
    case EntryCancelled => CallsOk(c, e);
    case ShutdownCalled => CallsOk(c, e);
    case _ => OthersOk(c, e);
  }

  lemma {:induction false} RunOk(auto: bool, steps: seq<Step>)
    requires Run(auto, steps).Some?
    ensures ClientOk(Run(auto, steps).value)
  {
    hide ClientOk, Next, Enabled;
    if steps != [] {
      RunOk(auto, steps[..|steps| - 1]);
      NextOk(Run(auto, steps[..|steps| - 1]).value, steps[|steps| - 1]);
    } else {
      NewOk(auto);
    }
  }

  lemma NewOk(auto: bool)
    ensures ClientOk(NewClient(auto))
  {
  }

  // What holds over every run

  /** `transition_client_state` never raises, and a stop, once requested, shows in the state. */
  lemma TransitionsNeverRaise(auto: bool, steps: seq<Step>)
    requires Run(auto, steps).Some?
    ensures
      var c := Run(auto, steps).value;
      && !c.raised
      && (c.shutdown ==> c.state == ShuttingDown || c.state == Closed)
      && (c.state == ShuttingDown ==> c.shutdown)
  {
    RunOk(auto, steps);
  }

  lemma StoppedStaysStopped(c: Client, e: Step)
    requires Enabled(c, e) && !e.Enters?
    requires c.shutdown || !Live(c.supervisor) || (c.supervisor.Closing? && c.supervisor.refused)
    ensures
      var d := Next(c, e);
      d.asked == c.asked && (d.supervisor == Handshaking ==> c.supervisor == Handshaking) && (c.shutdown ==> d.shutdown)
  {
    hide TransitionState, Settle, Exit, Ask;
  }

  /** No handshake starts, and nothing is asked, once the stop was requested or the decider refused,
      until the client is entered again. */
  lemma NothingStartsAfterStop(auto: bool, steps: seq<Step>, e: Step)
    requires Run(auto, steps).Some? && Enabled(Run(auto, steps).value, e) && !e.Enters?
    requires Run(auto, steps).value.shutdown || Run(auto, steps).value.refused
    ensures
      var c := Run(auto, steps).value;
      var d := Next(c, e);
      d.asked == c.asked && (d.supervisor == Handshaking ==> c.supervisor == Handshaking) && (c.shutdown ==> d.shutdown)
  {
    hide Next, Enabled, StateOk, SocketsOk, EntryOk, Parse;
    RunOk(auto, steps);
    StoppedStaysStopped(Run(auto, steps).value, e);
  }

  /** When the client is CLOSED and its supervisor has ended, every socket it ever got is closed. */
  lemma ClosedMeansSocketsShut(auto: bool, steps: seq<Step>, k: Socket)
    requires Run(auto, steps).Some? && Run(auto, steps).value.state == Closed && k < Run(auto, steps).value.sockets
    ensures !Live(Run(auto, steps).value.supervisor) && k in Run(auto, steps).value.shut
  {
    RunOk(auto, steps);
    hide Parse;
  }

  /** With auto_reconnect, the events asked in one entry are a prefix of
      (Connecting (ConnectFailed | Connected Disconnected))*, and Connected carries 1, 2, 3, ... */
  lemma ConversationFollowsGrammar(auto: bool, steps: seq<Step>)
    requires Run(auto, steps).Some?
    ensures
      var c := Run(auto, steps).value;
      if auto then Parse(c.asked).Some? && Parse(c.asked).value.1 == c.generation else c.asked == []
  {
    RunOk(auto, steps);
    AutoFixed(auto, steps);
  }

  lemma KeepsAuto(c: Client, e: Step)
    requires Enabled(c, e)
    ensures Next(c, e).auto == c.auto
  {
    hide TransitionState, Settle, Exit;
  }

  lemma {:induction false} AutoFixed(auto: bool, steps: seq<Step>)
    requires Run(auto, steps).Some?
    ensures Run(auto, steps).value.auto == auto
  {
    hide Next, Enabled;
    if steps != [] {
      AutoFixed(auto, steps[..|steps| - 1]);
      KeepsAuto(Run(auto, steps[..|steps| - 1]).value, steps[|steps| - 1]);
    }
  }

  /** The entry future is settled at most once, by the time the supervisor ends unless the entering
      task gave up, and with success only after a session started. */
  lemma EntrySettledOnce(auto: bool, steps: seq<Step>)
    requires Run(auto, steps).Some?
    ensures
      var c := Run(auto, steps).value;
      && c.settled <= 1 && (c.settled == 1 <==> c.entry == Succeeded || c.entry == Failed)
      && (c.entry == Succeeded ==> c.sessions >= 1)
      && (!Live(c.supervisor) ==> c.entry != Awaited)
  {
    RunOk(auto, steps);
  }

  // What the entering caller and the state show

  predicate InSession(s: Supervisor) {
    s.Rejoining? || s.Notifying? || s.Routing? || s.Reporting? || (s.Closing? && !s.refused)
  }

  /** The entry succeeds as soon as the first session's rejoins end, and fails only with a supervisor that ends. */
  predicate EntryRight(c: Client) {
    && (InSession(c.supervisor) && !c.supervisor.Rejoining? ==> c.entry == Succeeded || c.entry == Abandoned)
    && (c.entry == Failed ==> c.supervisor.Ended? || (c.supervisor.Closing? && c.supervisor.refused))
    && (Live(c.supervisor) ==> c.entry != NoEntry)
  }

  /** CONNECTED only within a session; between sessions the client is connecting or reconnecting; a supervisor that reconnects
      automatically ends only because of a stop or a refusal. */
  predicate StateRight(c: Client) {
    && (c.state == ClientState.Connected ==> InSession(c.supervisor) && !c.shutdown)
    && (InSession(c.supervisor) && !c.shutdown ==> c.state == ClientState.Connected || c.state == Reconnecting)
    && (c.supervisor.Waiting? && !c.shutdown ==> c.state == Reconnecting)
    && (c.auto && c.supervisor.Ended? ==> c.shutdown || c.refused)
    && (!c.auto && c.sessions > 0 ==> InSession(c.supervisor) || c.supervisor.Ended?)
    && (!c.auto ==> c.sessions <= 1 && !c.supervisor.Waiting?)
    && (c.supervisor.Closing? && c.supervisor.refused ==> c.refused)
  }

  predicate Right(c: Client) {
    EntryRight(c) && StateRight(c)
  }

  lemma EndingRight(c: Client)
    requires StateOk(c) && Right(c) && Live(c.supervisor) && (c.auto ==> c.shutdown || c.refused)
    ensures Right(Exit(c))
  {
  }

  lemma AskingRight(c: Client, e: Event, goes: bool, terminal: bool)
    requires Live(c.supervisor) && EntryOk(c)
    ensures
      var d := Ask(c, e, goes, terminal);
      && d.state == c.state && d.supervisor == c.supervisor && d.shutdown == c.shutdown && d.sessions == c.sessions && d.auto == c.auto
      && d.stopping == c.stopping && d.raised == c.raised
      && (!goes ==> d.refused) && (goes ==> d.entry == c.entry && d.refused == c.refused)
      && (d.entry == c.entry || (d.entry == Failed && !goes))
  {
  }

  /** The supervisor asked, was refused, and ends. */
  lemma RefusedRight(c: Client, e: Event, terminal: bool)
    requires ClientOk(c) && Right(c) && Live(c.supervisor)
    ensures Right(Exit(Ask(c, e, false, terminal)))
  {
    hide Parse, SocketsOk, AskedOk, Ask;
    AskingRight(c, e, false, terminal);
  }

  lemma LoopRight(c: Client, goes: bool, terminal: bool)
    requires ClientOk(c) && Right(c) && c.supervisor == LoopTop
    ensures Right(Loop(c, goes, terminal))
  {
    hide Parse, SocketsOk, AskedOk, Exit, Ask;
    if c.shutdown {
      EndingRight(c);
    } else if c.auto {
      AskingRight(c, Event.Connecting, goes, terminal);
      RefusedRight(c, Event.Connecting, terminal);
    }
  }

  lemma RetryRight(c: Client, d: Client)
    requires StateOk(c) && Right(c) && Live(c.supervisor) && !c.shutdown && c.auto
    requires d.state == c.state && d.shutdown == c.shutdown && d.auto == c.auto && d.entry == c.entry && d.refused == c.refused
    requires d.sessions == c.sessions && c.entry != Failed
    ensures Right(TransitionState(d, Reconnecting).(supervisor := Waiting))
  {
  }

  lemma FailedHandshakeRight(c: Client, goes: bool, terminal: bool)
    requires ClientOk(c) && Right(c) && c.supervisor == Handshaking
    ensures Right(HandshakeFails(c, goes, terminal))
  {
    hide Parse, SocketsOk, AskedOk, Exit, Ask, TransitionState, Right;
    if !c.auto {
      LostEntryRight(c);
    } else if c.shutdown {
      EndingRight(c);
    } else {
      AskingRight(c, ConnectFailed, goes, terminal);
      RefusedRight(c, ConnectFailed, terminal);
      NotFailed(c);
      if goes {
        RetryRight(c, Ask(c, ConnectFailed, true, terminal));
      }
    }
  }

  lemma NotFailed(c: Client)
    requires Right(c) && Live(c.supervisor) && !c.supervisor.Closing?
    ensures c.entry != Failed
  {
  }

  lemma LostEntryRight(c: Client)
    requires StateOk(c) && EntryOk(c) && Right(c) && c.supervisor == Handshaking && !c.auto
    ensures Right(Exit(Settle(c, false)))
  {
  }

  lemma AdoptionRight(c: Client, goes: bool, terminal: bool)
    requires ClientOk(c) && Right(c) && c.supervisor == Handshaking
    ensures Right(Adopt(c, goes, terminal))
  {
    hide Parse, SocketsOk, AskedOk, Adopt, Exit;
    if c.shutdown {
      LateRight(c, goes, terminal);
    } else if c.auto && !goes {
      RefusedAdoptionFrame(c, terminal);
    } else {
      AdoptionFrame(c, goes, terminal);
    }
  }

  lemma LateRight(c: Client, goes: bool, terminal: bool)
    requires StateOk(c) && Right(c) && c.supervisor == Handshaking && c.shutdown
    ensures Right(Adopt(c, goes, terminal))
  {
    hide Exit;
    EndingRight(c.(connection := Some(c.sockets), sockets := c.sockets + 1));
  }

  lemma DecisionRight(c: Client, close: Close, goes: bool, terminal: bool)
    requires ClientOk(c) && Right(c) && c.supervisor == Reporting
    ensures Right(DecideReconnect(c, close, goes, terminal))
  {
    hide Parse, SocketsOk, AskedOk, Exit, Ask, TransitionState, Right;
    var event := Disconnected(if close.forced then None else close.code);
    if c.shutdown || !c.auto {
      EndingRight(c);
    } else {
      AskingRight(c, event, goes, terminal);
      RefusedRight(c, event, terminal);
      NotFailed(c);
      if goes {
        RetryRight(c, Ask(c, event, true, terminal));
      }
    }
  }

  lemma ShutRight(c: Client, socket: Option<Socket>)
    requires StateOk(c) && Right(c)
    ensures StateOk(Shut(c, socket)) && Right(Shut(c, socket)) && Shut(c, socket).supervisor == c.supervisor
  {
  }

  lemma ClosedRight(c: Client)
    requires ClientOk(c) && Right(c) && c.supervisor.Closing?
    ensures Right(Next(c, SupervisorClosed))
  {
    hide Parse, SocketsOk, AskedOk, Exit;
    if c.supervisor.refused {
      ShutRight(c, c.supervisor.socket);
      EndingRight(Shut(c, c.supervisor.socket));
    }
  }

  lemma CancelledRight(c: Client)
    requires ClientOk(c) && Right(c) && Enabled(c, SupervisorCancelled)
    ensures Right(Next(c, SupervisorCancelled))
  {
    hide Parse, SocketsOk, AskedOk, EntryOk, Exit, Shut, EntryRight, StateRight;
    if c.supervisor.Closing? {
      ShutRight(c, c.supervisor.socket);
      StoppingShows(c);
      EndingRight(Shut(c, c.supervisor.socket));
    } else {
      EndingRight(c);
    }
  }

  lemma StoppingShows(c: Client)
    requires StateOk(c) && c.stopping == StoppingSupervisor
    ensures c.shutdown && forall socket :: Shut(c, socket).shutdown
  {
  }

  lemma SessionRight(c: Client, e: Step)
    requires ClientOk(c) && Right(c) && Enabled(c, e)
    requires e.Enters? || e.WaitEnds? || e.RejoinsEnd? || e.CallbackEnds? || e.RoutingEnds? || e.EntryCancelled?
    ensures Right(Next(c, e))
  {
    hide Parse, SocketsOk, AskedOk;
  }

  lemma ShutdownRight(c: Client, e: Step)
    requires ClientOk(c) && Right(c) && Enabled(c, e)
    requires e.ShutdownCalled? || e.SendFails? || e.SupervisorStopped? || e.ShutdownClosed? || e.ChannelsLeft?
    ensures Right(Next(c, e))
  {
    hide Parse, SocketsOk, AskedOk;
  }

  lemma SteppingRight(c: Client, e: Step)
    requires ClientOk(c) && Right(c) && Enabled(c, e)
    ensures Right(Next(c, e))
  {
    hide ClientOk, Right, Loop, HandshakeFails, Adopt, DecideReconnect;
    match e
    case Loops(goes, terminal) => LoopRight(c, goes, terminal);
    case HandshakeFailed(goes, terminal) => FailedHandshakeRight(c, goes, terminal);
    case HandshakeSucceeded(goes, terminal) => AdoptionRight(c, goes, terminal);
    case Reported(close, goes, terminal) => DecisionRight(c, close, goes, terminal);
    case SupervisorClosed => ClosedRight(c);
    case SupervisorCancelled => CancelledRight(c);
    case ShutdownCalled => ShutdownRight(c, e);
    case SendFails => ShutdownRight(c, e);
    case SupervisorStopped => ShutdownRight(c, e);
    case ShutdownClosed => ShutdownRight(c, e);
    case ChannelsLeft => ShutdownRight(c, e);
    case _ => SessionRight(c, e);
  }

  lemma {:induction false} RunRight(auto: bool, steps: seq<Step>)
    requires Run(auto, steps).Some?
    ensures Right(Run(auto, steps).value) && ClientOk(Run(auto, steps).value)
  {
    hide ClientOk, Next, Enabled;
    RunOk(auto, steps);
    if steps != [] {
      RunRight(auto, steps[..|steps| - 1]);
      SteppingRight(Run(auto, steps[..|steps| - 1]).value, steps[|steps| - 1]);
    }
  }

  /** While a session runs beyond its rejoins, the entry has succeeded unless its caller gave up; it fails only with a supervisor that
      ends, or that closes a refused socket. */
  lemma EntryFollowsSession(auto: bool, steps: seq<Step>)
    requires Run(auto, steps).Some?
    ensures
      var c := Run(auto, steps).value;
      && (c.supervisor.Notifying? || c.supervisor.Routing? || c.supervisor.Reporting? || (c.supervisor.Closing? && !c.supervisor.refused) ==>
            c.entry == Succeeded || c.entry == Abandoned)
      && (c.entry == Failed ==> c.supervisor.Ended? || (c.supervisor.Closing? && c.supervisor.refused))
      && (Live(c.supervisor) ==> c.entry != NoEntry)
  {
    RunRight(auto, steps);
  }

  /** The end of the first session's rejoins lets a waiting entry succeed. */
  lemma EntrySucceeds(auto: bool, steps: seq<Step>, notify: bool)
    requires Run(auto, steps).Some? && Enabled(Run(auto, steps).value, RejoinsEnd(notify))
    ensures
      var c := Run(auto, steps).value;
      var d := Next(c, RejoinsEnd(notify));
      && (d.entry == Succeeded || (c.entry == Abandoned && d.entry == Abandoned))
      && d.supervisor == if notify then Notifying else Routing
  {
    hide Parse, SocketsOk, AskedOk;
    RunRight(auto, steps);
  }

  /** CONNECTED only within a session, RECONNECTING between two, and an automatically reconnecting supervisor ends only because of a
      stop or a refusal; without auto_reconnect there is at most one session and no second attempt. */
  lemma StateFollowsSession(auto: bool, steps: seq<Step>)
    requires Run(auto, steps).Some?
    ensures
      var c := Run(auto, steps).value;
      && (c.state == ClientState.Connected ==> InSession(c.supervisor) && !c.shutdown)
      && (InSession(c.supervisor) && !c.shutdown ==> c.state == ClientState.Connected || c.state == Reconnecting)
      && (c.supervisor.Waiting? ==> auto && (!c.shutdown ==> c.state == Reconnecting))
      && (auto && c.supervisor.Ended? ==> c.shutdown || c.refused)
      && (!auto ==> c.sessions <= 1 && (c.sessions == 1 ==> InSession(c.supervisor) || c.supervisor.Ended?))
  {
    hide ClientOk;
    RunRight(auto, steps);
    AutoFixed(auto, steps);
  }

  // What each step has to do

  /** The supervisor ends: CLOSED unless a shutdown closes it, and an entry still waiting fails. */
  predicate Ends(c: Client, d: Client) {
    && d.supervisor.Ended? && d.state == (if c.state == ShuttingDown then ShuttingDown else Closed)
    && d.entry == (if c.entry == Awaited then Failed else c.entry)
  }

  /** A decision after a failure: a retry from RECONNECTING, or the end. */
  predicate Decides(c: Client, e: Event, goes: bool, d: Client) {
    && d.asked == (if c.auto && !c.shutdown then c.asked + [e] else c.asked)
    && if c.auto && !c.shutdown && goes then d.supervisor == Waiting && d.state == Reconnecting && d.entry == c.entry else Ends(c, d)
  }

  predicate SupervisorEffect(c: Client, e: Step, d: Client) {
    match e
    case Loops(goes, _) =>
      && d.asked == (if c.auto && !c.shutdown then c.asked + [Event.Connecting] else c.asked)
      && if c.shutdown || (c.auto && !goes) then Ends(c, d) else d.supervisor == Handshaking && d.state == c.state && d.entry == c.entry
    case HandshakeFailed(goes, _) => Decides(c, ConnectFailed, goes, d)
    case HandshakeSucceeded(goes, terminal) =>
      && d.sockets == c.sockets + 1
      && if c.shutdown then Ends(c, d) && d.connection == Some(c.sockets) && d.asked == c.asked
         else
           && d.generation == c.generation + 1
           && d.asked == (if c.auto then c.asked + [Event.Connected(c.generation + 1)] else c.asked)
           && if c.auto && !goes then d.supervisor == Closing(Some(c.sockets), true) && d.connection.None? && d.state == c.state
                && d.entry == (if terminal && c.entry == Awaited then Failed else c.entry)
              else
                && d.supervisor == Rejoining && d.connection == Some(c.sockets) && d.state == ClientState.Connected
                && d.sessions == c.sessions + 1 && d.entry == c.entry
    case WaitEnds => d == c.(supervisor := LoopTop)
    case RejoinsEnd(notify) =>
      d.supervisor == (if notify then Notifying else Routing) && d.entry == (if c.entry == Awaited then Succeeded else c.entry)
    case CallbackEnds => d == c.(supervisor := Routing)
    case RoutingEnds => d == c.(supervisor := Closing(c.connection, false), connection := None)
    case SupervisorClosed =>
      c.supervisor.Closing?
      && (c.supervisor.socket.Some? ==> c.supervisor.socket.value in d.shut)
      && if c.supervisor.refused then Ends(c, d) else d.supervisor == Reporting && d.state == c.state && d.entry == c.entry
    case Reported(close, goes, _) => Decides(c, Disconnected(if close.forced then None else close.code), goes, d)
    case SupervisorCancelled =>
      Ends(c, d) && (c.supervisor.Closing? && c.supervisor.socket.Some? ==> c.supervisor.socket.value in d.shut)
    case _ => true
  }

  predicate ClientEffect(c: Client, e: Step, d: Client) {
    match e
    case Enters =>
      && d.state == ClientState.Connecting && d.supervisor == LoopTop && d.entry == Awaited && !d.shutdown && d.generation == 0
      && d.asked == [] && !d.refused && d.sessions == 0
    case EntryCancelled => d == c.(entry := Abandoned)
    case ShutdownCalled =>
      && d.shutdown && d.stopping == StoppingSupervisor && d.supervisor == c.supervisor
      && d.state == (if c.state == Closed then Closed else ShuttingDown)
    case SendFails => d == c.(state := if c.state == ClientState.Connected then Reconnecting else c.state)
    case SupervisorStopped => d == c.(stopping := ClosingConnection(c.connection), connection := None)
    case ShutdownClosed =>
      c.stopping.ClosingConnection? && d.stopping == LeavingChannels && (c.stopping.socket.Some? ==> c.stopping.socket.value in d.shut)
    case ChannelsLeft => d.stopping == Finished && d.state == Closed && d.supervisor == c.supervisor
    case _ => true
  }

  lemma EndingTakesEffect(c: Client)
    requires StateOk(c) && Live(c.supervisor)
    ensures Ends(c, Exit(c))
  {
  }

  lemma AskingFields(c: Client, e: Event, goes: bool, terminal: bool)
    ensures
      var d := Ask(c, e, goes, terminal);
      && d.asked == c.asked + [e] && d.state == c.state && d.supervisor == c.supervisor && d.shutdown == c.shutdown && d.raised == c.raised
      && d.stopping == c.stopping && d.connection == c.connection && d.sockets == c.sockets && d.sessions == c.sessions
      && d.entry == (if !goes && terminal && c.entry == Awaited then Failed else c.entry)
  {
  }

  lemma RefusalTakesEffect(c: Client, e: Event, terminal: bool)
    requires ClientOk(c) && Live(c.supervisor)
    ensures
      var d := Exit(Ask(c, e, false, terminal));
      Ends(c, d) && d.asked == c.asked + [e]
  {
    hide Parse, SocketsOk, AskedOk, Ask, Exit;
    AskKeeps(c, e, false, terminal);
    AskingFields(c, e, false, terminal);
    EndingTakesEffect(Ask(c, e, false, terminal));
  }

  lemma RetryFields(c: Client)
    requires c.state != Closed && c.state != ShuttingDown
    ensures
      var d := TransitionState(c, Reconnecting).(supervisor := Waiting);
      d.asked == c.asked && d.state == Reconnecting && d.supervisor == Waiting && d.entry == c.entry
  {
  }

  /** A supervisor that was not asked to stop is not in a stopped state. */
  lemma GoingState(c: Client)
    requires StateOk(c) && Live(c.supervisor) && !c.shutdown
    ensures c.state != Closed && c.state != ShuttingDown
  {
  }

  lemma LoopTakesEffect(c: Client, goes: bool, terminal: bool)
    requires ClientOk(c) && c.supervisor == LoopTop
    ensures SupervisorEffect(c, Loops(goes, terminal), Loop(c, goes, terminal))
  {
    hide Parse, SocketsOk, AskedOk, Exit, Ask, Ends;
    if c.shutdown {
      EndingTakesEffect(c);
    } else if c.auto {
      AskingFields(c, Event.Connecting, goes, terminal);
      RefusalTakesEffect(c, Event.Connecting, terminal);
    }
  }

  lemma LostEntryEnds(c: Client)
    requires StateOk(c) && c.supervisor == Handshaking
    ensures Ends(c, Exit(Settle(c, false)))
  {
  }

  lemma FailureTakesEffect(c: Client, goes: bool, terminal: bool)
    requires ClientOk(c) && c.supervisor == Handshaking
    ensures SupervisorEffect(c, HandshakeFailed(goes, terminal), HandshakeFails(c, goes, terminal))
  {
    hide Parse, SocketsOk, AskedOk, Exit, Ask, Ends, TransitionState;
    if !c.auto {
      LostEntryEnds(c);
    } else if c.shutdown {
      EndingTakesEffect(c);
    } else {
      GoingState(c);
      AskingFields(c, ConnectFailed, goes, terminal);
      RefusalTakesEffect(c, ConnectFailed, terminal);
      RetryFields(Ask(c, ConnectFailed, goes, terminal));
    }
  }

  lemma AdoptionTakesEffect(c: Client, goes: bool, terminal: bool)
    requires ClientOk(c) && c.supervisor == Handshaking
    ensures SupervisorEffect(c, HandshakeSucceeded(goes, terminal), Adopt(c, goes, terminal))
  {
    hide Parse, SocketsOk, AskedOk, Adopt, Exit, Ends;
    if c.shutdown {
      LateTakesEffect(c, goes, terminal);
    } else if c.auto && !goes {
      RefusedAdoptionFrame(c, terminal);
    } else {
      GoingState(c);
      AdoptionFrame(c, goes, terminal);
    }
  }

  lemma LateTakesEffect(c: Client, goes: bool, terminal: bool)
    requires StateOk(c) && c.supervisor == Handshaking && c.shutdown
    ensures
      var d := Adopt(c, goes, terminal);
      Ends(c, d) && d.connection == Some(c.sockets) && d.asked == c.asked && d.sockets == c.sockets + 1
  {
  }

  lemma DecisionTakesEffect(c: Client, close: Close, goes: bool, terminal: bool)
    requires ClientOk(c) && c.supervisor == Reporting
    ensures SupervisorEffect(c, Reported(close, goes, terminal), DecideReconnect(c, close, goes, terminal))
  {
    hide Parse, SocketsOk, AskedOk, Exit, Ask, Ends, TransitionState;
    var event := Disconnected(if close.forced then None else close.code);
    if c.shutdown || !c.auto {
      EndingTakesEffect(c);
    } else {
      GoingState(c);
      AskingFields(c, event, goes, terminal);
      RefusalTakesEffect(c, event, terminal);
      RetryFields(Ask(c, event, goes, terminal));
    }
  }

  lemma ShutFields(c: Client, socket: Option<Socket>)
    requires StateOk(c)
    ensures
      var d := Shut(c, socket);
      && StateOk(d) && d.supervisor == c.supervisor && d.state == c.state && d.entry == c.entry && (socket.Some? ==> socket.value in d.shut)
  {
  }

  lemma ExitKeepsShut(c: Client)
    ensures Exit(c).shut == c.shut
  {
  }

  lemma ClosingTakesEffect(c: Client, e: Step)
    requires ClientOk(c) && Enabled(c, e) && (e.SupervisorClosed? || e.SupervisorCancelled?)
    ensures SupervisorEffect(c, e, Next(c, e))
  {
    hide Parse, SocketsOk, AskedOk, EntryOk, Exit, Shut, Ends, StateOk;
    LivesOn(c, e);
    if c.supervisor.Closing? {
      var d := Shut(c, c.supervisor.socket);
      ShutFields(c, c.supervisor.socket);
      EndingTakesEffect(d);
      EndsAlike(c, d, Exit(d));
      ExitKeepsShut(d);
      ReportingFields(d);
    } else {
      EndingTakesEffect(c);
    }
  }

  lemma LivesOn(c: Client, e: Step)
    requires Enabled(c, e) && (e.SupervisorClosed? || e.SupervisorCancelled?)
    ensures Live(c.supervisor)
  {
  }

  lemma ReportingFields(c: Client)
    ensures
      var d := c.(supervisor := Reporting);
      d.state == c.state && d.entry == c.entry && d.shut == c.shut
  {
  }

  lemma EndsAlike(c: Client, d: Client, e: Client)
    requires Ends(d, e) && d.state == c.state && d.entry == c.entry
    ensures Ends(c, e)
  {
  }

  lemma OthersTakeEffect(c: Client, e: Step)
    requires ClientOk(c) && Enabled(c, e)
    requires e.WaitEnds? || e.RejoinsEnd? || e.CallbackEnds? || e.RoutingEnds?
    ensures SupervisorEffect(c, e, Next(c, e))
  {
    hide ClientOk;
  }

  lemma ClientStepsTakeEffect(c: Client, e: Step)
    requires ClientOk(c) && Enabled(c, e)
    ensures ClientEffect(c, e, Next(c, e))
  {
    hide SocketsOk, EntryOk, AskedOk, Parse, Loop, HandshakeFails, Adopt, DecideReconnect, Exit;
  }

  /** Every step does what it is for: handshakes, sessions, decisions with their events and their close codes, retries and ends. */
  lemma StepsTakeEffect(auto: bool, steps: seq<Step>, e: Step)
    requires Run(auto, steps).Some? && Enabled(Run(auto, steps).value, e)
    ensures
      var c := Run(auto, steps).value;
      SupervisorEffect(c, e, Next(c, e)) && ClientEffect(c, e, Next(c, e))
  {
    hide Run, ClientOk, SupervisorEffect, ClientEffect, Loop, HandshakeFails, Adopt, DecideReconnect;
    RunOk(auto, steps);
    var c := Run(auto, steps).value;
    ClientStepsTakeEffect(c, e);
    match e
    case Loops(goes, terminal) => LoopTakesEffect(c, goes, terminal);
    case HandshakeFailed(goes, terminal) => FailureTakesEffect(c, goes, terminal);
    case HandshakeSucceeded(goes, terminal) => AdoptionTakesEffect(c, goes, terminal);
    case Reported(close, goes, terminal) => DecisionTakesEffect(c, close, goes, terminal);
    case SupervisorClosed => ClosingTakesEffect(c, e);
    case SupervisorCancelled => ClosingTakesEffect(c, e);
    case WaitEnds => OthersTakeEffect(c, e);
    case RejoinsEnd(_) => OthersTakeEffect(c, e);
    case CallbackEnds => OthersTakeEffect(c, e);
    case RoutingEnds => OthersTakeEffect(c, e);
    case _ => NotSupervisors(c, e);
  }

  lemma NotSupervisors(c: Client, e: Step)
    requires Enabled(c, e)
    requires e.Enters? || e.EntryCancelled? || e.ShutdownCalled? || e.SendFails? || e.SupervisorStopped? || e.ShutdownClosed? || e.ChannelsLeft?
    ensures SupervisorEffect(c, e, Next(c, e))
  {
  }

  /** Nobody waits in vain: a supervisor that lives, and a shutdown task that runs, have a next step. */
  lemma EverySuspensionEnds(auto: bool, steps: seq<Step>)
    requires Run(auto, steps).Some?
    ensures
      var c := Run(auto, steps).value;
      && (match c.supervisor
          case LoopTop => Enabled(c, Loops(true, false)) && Enabled(c, Loops(false, true)) && Enabled(c, Loops(false, false))
          case Handshaking =>
            forall goes, terminal :: Enabled(c, HandshakeFailed(goes, terminal)) && Enabled(c, HandshakeSucceeded(goes, terminal))
          case Waiting => Enabled(c, WaitEnds)
          case Rejoining => Enabled(c, RejoinsEnd(false)) && (c.generation > 1 && !c.shutdown ==> Enabled(c, RejoinsEnd(true)))
          case Notifying => Enabled(c, CallbackEnds)
          case Routing => Enabled(c, RoutingEnds)
          case Closing(_, _) => Enabled(c, SupervisorClosed)
          case Reporting => forall close, goes, terminal :: Enabled(c, Reported(close, goes, terminal))
          case _ => !Live(c.supervisor))
      && (match c.stopping
          case StoppingSupervisor => Enabled(c, SupervisorStopped) || Enabled(c, SupervisorCancelled) || c.supervisor == LoopTop
          case ClosingConnection(_) => Enabled(c, ShutdownClosed)
          case LeavingChannels => Enabled(c, ChannelsLeft)
          case _ => Enabled(c, ShutdownCalled))
      && (c.state == Closed && !Stopping(c.stopping) ==> Enabled(c, Enters))
      && (c.entry == Awaited ==> Enabled(c, EntryCancelled))
  {
    hide Run;
  }
}
