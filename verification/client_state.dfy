/** The client's connection state and its transition table (`client_state_machine.py`). */
module ClientStates {
  import opened Wrappers

  datatype ClientState = Connecting | Connected | Reconnecting | ShuttingDown | Closed

  function AllowedFrom(current: ClientState): set<ClientState> {
    match current
    case Closed => {Connecting}
    case Connecting => {Connected, Reconnecting, ShuttingDown, Closed}
    case Connected => {Reconnecting, ShuttingDown, Closed}
    case Reconnecting => {Connected, ShuttingDown, Closed}
    case ShuttingDown => {Closed}
  }

  /** `None` stands for the RuntimeError of an invalid transition. */
  function TransitionClientState(current: ClientState, next: ClientState): Option<ClientState> {
    if current == next then Some(current)
    else if next in AllowedFrom(current) then Some(next)
    else None
  }
}
