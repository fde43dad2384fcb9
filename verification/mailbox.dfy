/**
 * A channel's bounded message queue (`_enqueue_message` in `protocol_handler.py`,
 * `_drain_topic_queue` in `topic_runtime.py`) with the history of what it accepted.
 */
module Mailboxes {
  import opened Wrappers

  /** Message number `index` with the join_ref it carries, if any. */
  datatype Item = Item(index: nat, joinRef: Option<nat>)

  /** `log[k]` is the channel's join_ref when message k was accepted; message `dispatched[j]`
      was handed to the handlers while the join_ref was `epochs[j]`. */
  datatype Mailbox = Mailbox(
    queue: seq<Item>, log: seq<nat>, dispatched: seq<nat>, epochs: seq<nat>,
    taken: nat, dropped: nat, drained: nat)

  function EmptyMailbox(): Mailbox {
    Mailbox([], [], [], [], 0, 0, 0)
  }

  /** `_enqueue_message`: a full queue loses its oldest message. */
  function Enqueue(m: Mailbox, epoch: nat, joinRef: Option<nat>, limit: nat): Mailbox {
    var full := |m.queue| >= limit && m.queue != [];
    m.(queue := (if full then m.queue[1..] else m.queue) + [Item(|m.log|, joinRef)],
       log := m.log + [epoch],
       dropped := if full then m.dropped + 1 else m.dropped)
  }

  function Drain(m: Mailbox): Mailbox {
    m.(queue := [], drained := m.drained + |m.queue|)
  }

  function Skip(m: Mailbox): Mailbox
    requires m.queue != []
  {
    m.(queue := m.queue[1..], taken := m.taken + 1)
  }

  function Dispatch(m: Mailbox, epoch: nat): Mailbox
    requires m.queue != []
  {
    Skip(m).(dispatched := m.dispatched + [m.queue[0].index], epochs := m.epochs + [epoch])
  }
}
