/**
 * The mutable client of `client.py` and `supervisor.py`. Every public method is one step of
 * `Supervisors`, appended to the object's history: what holds after every run holds of the object.
 */
module ClientObjects {
  import opened Wrappers
  import opened ClientStates
  import opened Supervisors

  class PhoenixClient {
    const auto: bool
    var state: ClientState
    var shutdown: bool
    var connection: Option<Socket>
    var generation: nat
    var supervisor: Supervisor
    var stopping: Shutdown
    var entry: Entry
    ghost var raised: bool
    ghost var sockets: nat
    ghost var shut: set<Socket>
    ghost var asked: seq<Event>
    ghost var refused: bool
    ghost var settled: nat
    ghost var sessions: nat
    ghost var steps: seq<Step>

    ghost function View(): Client
      reads this
    {
      Client(auto, state, shutdown, connection, generation, supervisor, stopping, entry, raised, sockets, shut, asked,
             refused, settled, sessions)
    }

    /** The object is where its steps lead. */
    ghost predicate Valid()
      reads this
    {
      Run(auto, steps) == Some(View())
    }

    constructor (auto: bool)
      ensures Valid() && this.auto == auto && steps == []
    {
      this.auto := auto;
      state, shutdown, connection, generation := Closed, false, None, 0;
      supervisor, stopping, entry := Absent, NotShutDown, NoEntry;
      raised, sockets, shut, asked, refused, settled, sessions, steps := false, 0, {}, [], false, 0, 0, [];
    }

    /** The promises of `Supervisors` about every run, as they show in the object's fields. */
    lemma Promises()
      requires Valid()
      ensures ClientOk(View()) && !raised
      ensures shutdown ==> state == ShuttingDown || state == Closed
      ensures state == Closed ==> !Live(supervisor) && connection.None? && forall k :: 0 <= k < sockets ==> k in shut
      ensures auto ==> Parse(asked).Some? && Parse(asked).value.1 == generation
      ensures settled <= 1 && (entry == Succeeded ==> sessions >= 1) && (entry == Awaited ==> Live(supervisor))
      ensures supervisor.Notifying? || supervisor.Routing? ==> entry == Succeeded || entry == Abandoned
      ensures entry == Failed ==> supervisor.Ended? || (supervisor.Closing? && supervisor.refused)
      ensures state == ClientState.Connected ==> InSession(supervisor) && !shutdown
      ensures auto && supervisor.Ended? ==> shutdown || refused
    {
      hide Parse;
      RunOk(auto, steps);
      PromisedEntry();
      if state == Closed {
        forall k | 0 <= k < sockets ensures k in shut {
          ClosedMeansSocketsShut(auto, steps, k);
        }
      }
    }

    lemma PromisedEntry()
      requires Valid()
      ensures supervisor.Notifying? || supervisor.Routing? ==> entry == Succeeded || entry == Abandoned
      ensures entry == Failed ==> supervisor.Ended? || (supervisor.Closing? && supervisor.refused)
      ensures state == ClientState.Connected ==> InSession(supervisor) && !shutdown
      ensures auto && supervisor.Ended? ==> shutdown || refused
    {
      hide ClientOk, Run;
      EntryFollowsSession(auto, steps);
      StateFollowsSession(auto, steps);
    }

    /** The steps so far and one more. */
    lemma Extended(e: Step)
      requires Valid() && Enabled(View(), e)
      ensures Run(auto, steps + [e]) == Some(Supervisors.Next(View(), e))
    {
      hide Supervisors.Next, Enabled;
      assert (steps + [e])[..|steps|] == steps;
    }

    ghost method Note(e: Step)
      requires Run(auto, steps + [e]) == Some(View())
      modifies this`steps
      ensures Valid() && steps == old(steps) + [e] && View() == old(View())
    {
      steps := steps + [e];
    }

    // Pieces

    /** `_transition_state` */
    method TransitionState(next: ClientState)
      modifies this`state, this`raised
      ensures View() == Supervisors.TransitionState(old(View()), next)
    {
      var t := TransitionClientState(state, next);
      if t.None? {
        raised := true;
      } else {
        state := t.value;
      }
    }

    /** `_settle_initial_connection` */
    method SettleInitialConnection(success: bool)
      modifies this`entry, this`settled
      ensures View() == Settle(old(View()), success)
    {
      if entry == Awaited {
        entry := if success then Succeeded else Failed;
        settled := settled + 1;
      }
    }

    /** `_proceeds` on the decider's answer. */
    method Proceeds(e: Event, goes: bool, terminal: bool)
      modifies this`asked, this`refused, this`entry, this`settled
      ensures View() == Ask(old(View()), e, goes, terminal)
    {
      hide Settle;
      asked, refused := asked + [e], refused || !goes;
      if !goes && terminal {
        SettleInitialConnection(false);
      }
    }

    /** `_settle_supervisor_exit` */
    method SettleSupervisorExit()
      modifies this`state, this`raised, this`supervisor, this`entry, this`settled
      ensures View() == Exit(old(View()))
    {
      hide Settle, Supervisors.TransitionState;
      SettleInitialConnection(false);
      supervisor := Ended;
      if state != ShuttingDown {
        TransitionState(Closed);
      }
    }

    method TakeSocket(socket: Socket)
      modifies this`connection, this`sockets
      ensures View() == old(View()).(connection := Some(socket), sockets := old(sockets) + 1)
    {
      connection, sockets := Some(socket), sockets + 1;
    }

    method Restart()
      modifies this`shutdown, this`generation, this`entry, this`supervisor
      ensures View() == old(View()).(shutdown := false, generation := 0, entry := Awaited, supervisor := LoopTop)
    {
      shutdown, generation, entry, supervisor := false, 0, Awaited, LoopTop;
    }

    ghost method ForgetEntry()
      modifies this`asked, this`refused, this`settled, this`sessions
      ensures View() == old(View()).(asked := [], refused := false, settled := 0, sessions := 0)
    {
      asked, refused, settled, sessions := [], false, 0, 0;
    }

    /** `_close_websocket` on the socket a cleanup took. */
    ghost method CloseSocket(socket: Option<Socket>)
      modifies this`shut
      ensures View() == Shut(old(View()), socket)
    {
      if socket.Some? {
        shut := shut + {socket.value};
      }
    }

    // Callers

    /** `__aenter__`, or its SocketError for a client that is already running. */
    method Enter() returns (entered: bool)
      requires Valid()
      modifies this
      ensures Valid() && entered == Enabled(old(View()), Enters)
      ensures if entered then steps == old(steps) + [Enters] else steps == old(steps) && View() == old(View())
    {
      hide Supervisors.TransitionState, Run;
      if state != Closed || !(stopping.NotShutDown? || stopping.Finished?) {
        return false;
      }
      Extended(Enters);
      ForgetEntry();
      Restart();
      TransitionState(ClientState.Connecting);
      Note(Enters);
      return true;
    }

    /** The caller of `__aenter__` is cancelled while it waits. */
    method CancelEntry()
      requires Valid() && Enabled(View(), EntryCancelled)
      modifies this
      ensures Valid() && steps == old(steps) + [EntryCancelled]
    {
      hide Run;
      Extended(EntryCancelled);
      entry := Abandoned;
      Note(EntryCancelled);
    }

    /** `shutdown` up to its wait: `_request_stop` and the new task, unless one is active or the client
        is fully closed; `channelsGone` is whether no channel is registered or being cleaned up. */
    method RequestShutdown(channelsGone: bool)
      requires Valid()
      modifies this
      ensures Valid()
      ensures if old(Stopping(stopping) || (state == Closed && connection.None? && channelsGone))
              then steps == old(steps) && View() == old(View())
              else steps == old(steps) + [ShutdownCalled] && shutdown
    {
      hide Supervisors.TransitionState, Run;
      if !stopping.NotShutDown? && !stopping.Finished? {
        return;
      }
      if state == Closed && connection.None? && channelsGone {
        return;
      }
      Extended(ShutdownCalled);
      if state != ShuttingDown && state != Closed {
        TransitionState(ShuttingDown);
      }
      shutdown, stopping := true, StoppingSupervisor;
      Note(ShutdownCalled);
    }

    // The supervisor

    /** The top of `_supervisor_loop`, up to the handshake. */
    method BeginTurn(goes: bool, terminal: bool)
      requires Valid() && Enabled(View(), Loops(goes, terminal))
      modifies this
      ensures Valid() && steps == old(steps) + [Loops(goes, terminal)]
    {
      hide Exit, Ask, Run;
      Extended(Loops(goes, terminal));
      if shutdown {
        SettleSupervisorExit();
      } else {
        if auto {
          Proceeds(Event.Connecting, goes, terminal);
        }
        if auto && !goes {
          SettleSupervisorExit();
        } else {
          supervisor := Handshaking;
        }
      }
      Note(Loops(goes, terminal));
    }

    /** `_retry_after_connect_failure` */
    method RetryAfterConnectFailure(goes: bool, terminal: bool)
      requires Valid() && Enabled(View(), HandshakeFailed(goes, terminal))
      modifies this
      ensures Valid() && steps == old(steps) + [HandshakeFailed(goes, terminal)]
    {
      hide Exit, Ask, Settle, Supervisors.TransitionState, Run;
      Extended(HandshakeFailed(goes, terminal));
      if !auto {
        SettleInitialConnection(false);
        SettleSupervisorExit();
      } else if shutdown {
        SettleSupervisorExit();
      } else {
        Proceeds(ConnectFailed, goes, terminal);
        if !goes {
          SettleSupervisorExit();
        } else {
          TransitionState(Reconnecting);
          supervisor := Waiting;
        }
      }
      Note(HandshakeFailed(goes, terminal));
    }

    method Adopt(socket: Socket, goes: bool, terminal: bool)
      requires socket == sockets
      modifies this`state, this`raised, this`supervisor, this`entry, this`settled, this`connection, this`sockets, this`generation,
        this`asked, this`refused, this`sessions
      ensures View() == Supervisors.Adopt(old(View()), goes, terminal)
    {
      hide Exit, Ask, Supervisors.TransitionState;
      TakeSocket(socket);
      if shutdown {
        SettleSupervisorExit();
        return;
      }
      generation := generation + 1;
      if auto {
        Proceeds(Event.Connected(generation), goes, terminal);
        if !goes {
          connection, supervisor := None, Closing(Some(socket), true);
          return;
        }
      }
      TransitionState(ClientState.Connected);
      supervisor, sessions := Rejoining, sessions + 1;
    }

    /** `_adopt_connection`, and `_start_session` up to its rejoins. Sockets are numbered as they come. */
    method AdoptConnection(socket: Socket, goes: bool, terminal: bool)
      requires Valid() && Enabled(View(), HandshakeSucceeded(goes, terminal)) && socket == sockets
      modifies this
      ensures Valid() && steps == old(steps) + [HandshakeSucceeded(goes, terminal)]
    {
      hide Supervisors.Adopt, Run;
      Extended(HandshakeSucceeded(goes, terminal));
      Adopt(socket, goes, terminal);
      Note(HandshakeSucceeded(goes, terminal));
    }

    /** The end of `_wait_for_shutdown_or_timeout`. */
    method EndWait()
      requires Valid() && Enabled(View(), WaitEnds)
      modifies this
      ensures Valid() && steps == old(steps) + [WaitEnds]
    {
      hide Run;
      Extended(WaitEnds);
      supervisor := LoopTop;
      Note(WaitEnds);
    }

    /** The end of `_start_session`: the entry succeeds, and on_reconnect may be called. */
    method EndRejoins(notify: bool)
      requires Valid() && Enabled(View(), RejoinsEnd(notify))
      modifies this
      ensures Valid() && steps == old(steps) + [RejoinsEnd(notify)]
    {
      hide Run, Settle;
      Extended(RejoinsEnd(notify));
      SettleInitialConnection(true);
      supervisor := if notify then Notifying else Routing;
      Note(RejoinsEnd(notify));
    }

    method EndCallback()
      requires Valid() && Enabled(View(), CallbackEnds)
      modifies this
      ensures Valid() && steps == old(steps) + [CallbackEnds]
    {
      hide Run;
      Extended(CallbackEnds);
      supervisor := Routing;
      Note(CallbackEnds);
    }

    /** `_await_routing` returns: `_cleanup_connection` takes the socket. */
    method EndRouting()
      requires Valid() && Enabled(View(), RoutingEnds)
      modifies this
      ensures Valid() && steps == old(steps) + [RoutingEnds]
    {
      hide Run;
      Extended(RoutingEnds);
      connection, supervisor := None, Closing(connection, false);
      Note(RoutingEnds);
    }

    /** The supervisor's cleanup has closed its socket. */
    method EndSupervisorCleanup()
      requires Valid() && Enabled(View(), SupervisorClosed)
      modifies this
      ensures Valid() && steps == old(steps) + [SupervisorClosed]
    {
      hide Run, Exit, Shut;
      Extended(SupervisorClosed);
      var refusal := supervisor.refused;
      CloseSocket(supervisor.socket);
      if refusal {
        SettleSupervisorExit();
      } else {
        supervisor := Reporting;
      }
      Note(SupervisorClosed);
    }

    /** `_decide_reconnect` */
    method DecideReconnection(close: Close, goes: bool, terminal: bool)
      requires Valid() && Enabled(View(), Reported(close, goes, terminal))
      modifies this
      ensures Valid() && steps == old(steps) + [Reported(close, goes, terminal)]
    {
      hide Exit, Ask, Supervisors.TransitionState, Run;
      Extended(Reported(close, goes, terminal));
      if shutdown || !auto {
        SettleSupervisorExit();
      } else {
        Proceeds(Disconnected(if close.forced then None else close.code), goes, terminal);
        if !goes {
          SettleSupervisorExit();
        } else {
          TransitionState(Reconnecting);
          supervisor := Waiting;
        }
      }
      Note(Reported(close, goes, terminal));
    }

    /** `_fail_send_session` */
    method FailSendSession()
      requires Valid() && Enabled(View(), SendFails)
      modifies this
      ensures Valid() && steps == old(steps) + [SendFails]
    {
      hide Supervisors.TransitionState, Run;
      Extended(SendFails);
      if state == ClientState.Connected {
        TransitionState(Reconnecting);
      }
      Note(SendFails);
    }

    // The shutdown task

    /** `cancel_and_wait(supervisor)`: a supervisor cancelled in its cleanup still closes its socket. */
    method CancelSupervisor()
      requires Valid() && Enabled(View(), SupervisorCancelled)
      modifies this
      ensures Valid() && steps == old(steps) + [SupervisorCancelled]
    {
      hide Run, Exit, Shut;
      Extended(SupervisorCancelled);
      if supervisor.Closing? {
        CloseSocket(supervisor.socket);
      }
      SettleSupervisorExit();
      Note(SupervisorCancelled);
    }

    /** `_stop_supervisor` returns, and the shutdown's own `_cleanup_connection` takes the socket. */
    method BeginLastCleanup()
      requires Valid() && Enabled(View(), SupervisorStopped)
      modifies this
      ensures Valid() && steps == old(steps) + [SupervisorStopped]
    {
      hide Run;
      Extended(SupervisorStopped);
      connection, stopping := None, ClosingConnection(connection);
      Note(SupervisorStopped);
    }

    method EndLastCleanup()
      requires Valid() && Enabled(View(), ShutdownClosed)
      modifies this
      ensures Valid() && steps == old(steps) + [ShutdownClosed]
    {
      hide Run, Shut;
      Extended(ShutdownClosed);
      CloseSocket(stopping.socket);
      stopping := LeavingChannels;
      Note(ShutdownClosed);
    }

    /** The end of `_shutdown`: every socket the client ever got is closed. */
    method FinishShutdown()
      requires Valid() && Enabled(View(), ChannelsLeft)
      modifies this
      ensures Valid() && steps == old(steps) + [ChannelsLeft]
      ensures state == Closed && connection.None? && forall k :: 0 <= k < sockets ==> k in shut
    {
      hide Supervisors.TransitionState, Run, Parse, ClientOk;
      Extended(ChannelsLeft);
      Promises();
      StopShows();
      TransitionState(Closed);
      stopping := Finished;
      Note(ChannelsLeft);
      Promises();
    }

    lemma StopShows()
      requires ClientOk(View()) && stopping == LeavingChannels
      ensures Supervisors.TransitionState(View(), Closed).state == Closed
    {
      hide Parse;
    }
  }
}
