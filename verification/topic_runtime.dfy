/**
 * The mutable objects of `topic_runtime.py` and `topic_subscription.py`. The pieces of its code are
 * proved to compute what `Channels` says of them; the methods that run from one await to the next
 * keep `Valid`, the invariant of `ChannelInvariant`, for every registered topic.
 */
module TopicRuntimes {
  import opened Wrappers
  import opened ClientStates
  import opened Channels
  import opened Mailboxes
  import opened ChannelHandlers
  import opened ChannelProtocol
  import opened ChannelInvariant
  import opened ChannelSteps
  import opened ChannelAttended
  import opened ChannelEffects
  import opened ChannelSweeps
  import opened ChannelPass
  import opened ChannelSystem

  class TopicSubscription {
    const name: string
    const blocksReconnect: bool
    var state: ChannelState
    var cause: Option<Cause>
    var established: bool
    var leaveRequested: bool
    var connection: Option<ConnectionId>
    var generation: nat
    var joinRef: Ref
    var ready: Future
    var joinSubmitted: bool
    var terminal: bool
    var leaveRef: Option<Ref>
    var unsubscribed: Future
    var cleanupDone: bool
    var lossReported: bool
    var restartRequested: bool
    var pushes: set<Ref>
    var operations: map<Ref, Operation>
    var joiner: Option<Ref>
    var recovery: Recovery
    var recoveryCancelled: bool
    var leaver: Leaver
    var loss: Loss
    var processor: Processor
    var mail: Mailbox
    ghost var leftBy: Option<(Cause, Failure)>
    ghost var installed: seq<Ref>
    ghost var lossReports: nat
    ghost var abandoned: bool

    constructor (name: string, blocksReconnect: bool)
      ensures View(false) == NewChannel(name, blocksReconnect)
    {
      this.name, this.blocksReconnect := name, blocksReconnect;
      state, cause, established, leaveRequested := Created, None, false, false;
      connection, generation, joinRef, ready, joinSubmitted, terminal := None, 0, 0, Pending, false, false;
      leaveRef, unsubscribed, cleanupDone, lossReported, restartRequested := None, Pending, false, false, false;
      pushes, operations, joiner, recovery, recoveryCancelled := {}, map[], None, NoRecovery, false;
      leaver, loss, processor, mail := NoLeaver, NoLoss, NoProcessor, EmptyMailbox();
      leftBy, installed, lossReports, abandoned := None, [], 0, false;
    }

    ghost function View(registered: bool): Channel
      reads this
    {
      Channel(name, blocksReconnect, state, cause, established, leaveRequested, registered, connection, generation, joinRef,
              ready, joinSubmitted, terminal, leaveRef, unsubscribed, cleanupDone, lossReported, restartRequested, pushes,
              operations, joiner, recovery, recoveryCancelled, leaver, loss, processor, mail, leftBy, installed, lossReports,
              abandoned)
    }
  }

  // `_transition_channel` in three parts: the state, the current join, the pending pushes.

  predicate Retries(x: Context, c: Channel, cause: Cause) {
    c.established && Recoverable(cause) && !c.leaveRequested && !x.shutdown
  }

  function FirstLeft(c: Channel, cause: Cause, failure: Failure): Channel {
    c.(leftBy := First(c.leftBy, cause, failure))
  }

  function First(leftBy: Option<(Cause, Failure)>, cause: Cause, failure: Failure): Option<(Cause, Failure)> {
    if leftBy.None? then Some((cause, failure)) else leftBy
  }

  function Departed(c: Channel, cause: Cause): Channel {
    c.(cause := Some(cause), state := Left, leaveRequested := true)
  }

  function Moved(x: Context, c: Channel, cause: Cause, failure: Failure): Channel {
    if Retries(x, c, cause) then c.(cause := Some(cause), state := Rejoining) else Departed(FirstLeft(c, cause, failure), cause)
  }

  function JoinFailing(c: Channel, failure: Failure): Channel {
    c.(ready := Failed(failure), operations := SettleOutcome(c.operations, c.joinRef, Failed(failure)))
  }

  function PushesFailing(c: Channel, failure: Failure): Channel {
    c.(pushes := {}, operations := FailOutcomes(c.operations, c.pushes, failure))
  }

  function StateJoined(c: Channel): Channel {
    c.(cause := Some(Accepted), state := Joined, established := true)
  }

  function JoinSucceeding(c: Channel): Channel {
    c.(ready := if c.ready.Pending? then Succeeded else c.ready,
       operations := SettleOutcome(c.operations, c.joinRef, Succeeded))
  }

  lemma AcceptInParts(c: Channel)
    requires c.state != Left && !c.leaveRequested
    ensures JoinSucceeding(StateJoined(c)) == Accept(c)
  {
    hide SettleOutcome;
  }

  lemma TransitionInParts(x: Context, c: Channel, cause: Cause, failure: Failure)
    ensures PushesFailing(JoinFailing(Moved(x, c, cause, failure), failure), failure) == Transition(x, c, cause, failure)
  {
    hide FailOutcomes, SettleOutcome;
    var d := Moved(x, c, cause, failure);
    if Retries(x, c, cause) {
      assert JoinFailing(d, failure).operations == SettleOutcome(c.operations, c.joinRef, Failed(failure));
    } else {
      assert JoinFailing(d, failure).operations == SettleOutcome(c.operations, c.joinRef, Failed(failure));
    }
  }

  class TopicRuntime {
    const v2: bool
    const queueLimit: nat
    var state: ClientState
    var connection: Option<ConnectionId>
    var generation: nat
    var shutdown: bool
    var sendFailed: bool
    var routing: bool
    var refs: nat
    var topics: map<string, TopicSubscription>

    ghost var cleaning: Cleaning            // the connection whose `_cleanup_connection` has not ended
    ghost var roles: map<string, Role>      // what the supervisor's pass does with the topics

    /** Every topic is registered under its own name. */
    ghost predicate Shape()
      reads this
    {
      forall name :: name in topics ==> topics[name].name == name
    }

    ghost function RoleFor(name: string): Role
      reads this
    {
      if name in roles then roles[name] else Uninvolved
    }

    /** Every registered topic satisfies the invariant of the protocol. */
    ghost predicate Valid()
      reads this, topics.Values
    {
      && Shape() && ContextOk(Now())
      && forall name :: name in topics ==> ChannelOk(Now(), cleaning, RoleFor(name), View(topics[name]))
    }

    ghost function Now(): Context
      reads this
    {
      Context(v2, queueLimit, state, connection, generation, shutdown, sendFailed, routing, refs)
    }

    /** `_is_registered` */
    predicate IsRegistered(topic: TopicSubscription)
      reads this`topics
    {
      topic.name in topics && topics[topic.name] == topic
    }

    ghost function View(topic: TopicSubscription): Channel
      reads this`topics, topic
    {
      topic.View(IsRegistered(topic))
    }

    constructor (v2: bool, queueLimit: nat)
      ensures Valid() && topics == map[]
      ensures Now() == Context(v2, queueLimit, Closed, None, 0, false, false, false, 0)
    {
      this.v2, this.queueLimit := v2, queueLimit;
      state, connection, generation, shutdown := Closed, None, 0, false;
      sendFailed, routing, refs, topics := false, false, 0, map[];
      cleaning, roles := None, map[];
    }

    /** `_set_future_exception` and `set_result` on an operation's future. */
    method SetOutcome(topic: TopicSubscription, r: Ref, f: Future)
      modifies topic`operations
      ensures topic.operations == SettleOutcome(old(topic.operations), r, f)
    {
      if r in topic.operations && topic.operations[r].outcome.Pending? {
        topic.operations := topic.operations[r := topic.operations[r].(outcome := f)];
      }
    }

    method SettleOperation(topic: TopicSubscription, r: Ref, f: Future)
      modifies topic
      ensures View(topic) == old(View(topic)).(operations := SettleOutcome(old(topic.operations), r, f))
    {
      hide SettleOutcome;
      SetOutcome(topic, r, f);
    }

    method SettleJoin(topic: TopicSubscription, f: Future)
      modifies topic
      ensures View(topic) == old(View(topic)).(ready := f)
    {
      topic.ready := f;
    }

    /** The loop of `_transition_channel` over the pending pushes. */
    method FailPushOutcomes(topic: TopicSubscription, failure: Failure)
      modifies topic`operations, topic`pushes
      ensures topic.pushes == {}
      ensures topic.operations == FailOutcomes(old(topic.operations), old(topic.pushes), failure)
    {
      ghost var done := {};
      while topic.pushes != {}
        invariant done + topic.pushes == old(topic.pushes) && done !! topic.pushes
        invariant topic.operations == FailOutcomes(old(topic.operations), done, failure)
        decreases topic.pushes
      {
        var r :| r in topic.pushes;
        SetOutcome(topic, r, Failed(failure));
        topic.pushes := topic.pushes - {r};
        done := done + {r};
      }
    }

    method FailPushes(topic: TopicSubscription, failure: Failure)
      modifies topic
      ensures View(topic) == PushesFailing(old(View(topic)), failure)
    {
      hide FailOutcomes;
      FailPushOutcomes(topic, failure);
    }

    /** `_fail_current_join` */
    method FailCurrentJoin(topic: TopicSubscription, failure: Failure)
      modifies topic
      ensures View(topic) == JoinFailing(old(View(topic)), failure)
    {
      hide SettleOutcome, View;
      Fields(topic);
      SettleOperation(topic, topic.joinRef, Failed(failure));
      SettleJoin(topic, Failed(failure));
    }

    method Retry(topic: TopicSubscription, cause: Cause)
      modifies topic
      ensures View(topic) == old(View(topic)).(cause := Some(cause), state := Rejoining)
    {
      topic.cause, topic.state := Some(cause), Rejoining;
    }

    ghost method NoteFirst(topic: TopicSubscription, cause: Cause, failure: Failure)
      modifies topic
      ensures View(topic) == FirstLeft(old(View(topic)), cause, failure)
    {
      hide First;
      topic.leftBy := First(topic.leftBy, cause, failure);
    }

    method Depart(topic: TopicSubscription, cause: Cause)
      modifies topic
      ensures View(topic) == Departed(old(View(topic)), cause)
    {
      topic.cause, topic.state, topic.leaveRequested := Some(cause), Left, true;
    }

    method MoveOut(topic: TopicSubscription, cause: Cause, failure: Failure)
      modifies topic
      ensures View(topic) == Departed(FirstLeft(old(View(topic)), cause, failure), cause)
    {
      hide View, Departed, FirstLeft;
      NoteFirst(topic, cause, failure);
      Depart(topic, cause);
    }

    method MoveChannel(topic: TopicSubscription, cause: Cause, failure: Failure)
      modifies topic
      ensures View(topic) == Moved(Now(), old(View(topic)), cause, failure)
    {
      hide Departed, FirstLeft, View;
      Fields(topic);
      ghost var was := View(topic);
      var stays := topic.established && Recoverable(cause) && !topic.leaveRequested && !shutdown;
      assert stays == Retries(Now(), was, cause);
      hide Retries;
      if stays {
        Retry(topic, cause);
      } else {
        MoveOut(topic, cause, failure);
      }
    }

    /** `_transition_channel` for every cause but ACCEPTED. */
    method TransitionChannel(topic: TopicSubscription, cause: Cause, failure: Failure)
      modifies topic
      ensures View(topic) == Transition(Now(), old(View(topic)), cause, failure)
    {
      hide View, Moved, JoinFailing, PushesFailing, Transition;
      TransitionInParts(Now(), View(topic), cause, failure);
      MoveChannel(topic, cause, failure);
      FailCurrentJoin(topic, failure);
      FailPushes(topic, failure);
    }

    method MarkJoined(topic: TopicSubscription)
      modifies topic
      ensures View(topic) == StateJoined(old(View(topic)))
    {
      topic.cause, topic.state, topic.established := Some(Accepted), Joined, true;
    }

    method SucceedCurrentJoin(topic: TopicSubscription)
      modifies topic
      ensures View(topic) == JoinSucceeding(old(View(topic)))
    {
      hide SettleOutcome, View;
      Fields(topic);
      var pending := topic.ready.Pending?;
      SettleOperation(topic, topic.joinRef, Succeeded);
      if pending {
        SettleJoin(topic, Succeeded);
      }
    }

    /** `_transition_channel` for ACCEPTED. */
    method AcceptChannel(topic: TopicSubscription)
      modifies topic
      ensures View(topic) == Accept(old(View(topic)))
    {
      hide SettleOutcome, StateJoined, JoinSucceeding;
      if topic.state == Left || topic.leaveRequested {
        topic.cause := Some(Accepted);
      } else {
        AcceptInParts(View(topic));
        MarkJoined(topic);
        SucceedCurrentJoin(topic);
      }
    }

    /** `send_session.has_pending` of any of the topic's operations. */
    method AnySendPending(topic: TopicSubscription) returns (pending: bool)
      ensures pending == HasPendingSend(topic.operations)
    {
      pending := false;
      var rest := topic.operations.Keys;
      while rest != {}
        invariant rest <= topic.operations.Keys
        invariant pending <==> exists r :: r in topic.operations.Keys - rest && !topic.operations[r].send.Finished?
        decreases rest
      {
        var r :| r in rest;
        pending := pending || !topic.operations[r].send.Finished?;
        rest := rest - {r};
      }
    }

    /** `_release_reservation` */
    method ReleaseReservation(topic: TopicSubscription)
      requires Shape()
      modifies this`topics
      ensures Shape() && View(topic) == Release(Now(), old(View(topic)))
      ensures topics == if IsRegistered(topic) == old(IsRegistered(topic)) then old(topics) else old(topics) - {topic.name}
    {
      if !IsRegistered(topic) || topic.state != Left {
        return;
      }
      if !topic.cleanupDone && (topic.connection == connection || topic.leaver.NoLeaver?) {
        return;
      }
      if topic.joinSubmitted && !topic.terminal {
        return;
      }
      var pending := AnySendPending(topic);
      if pending {
        return;
      }
      topics := topics - {topic.name};
    }

    /** `_start_leave_task` */
    method StartLeaveTask(topic: TopicSubscription)
      modifies topic
      ensures View(topic) == StartLeave(Now(), old(View(topic)))
    {
      if topic.leaver.NoLeaver? {
        if topic.state != Left {
          TransitionChannel(topic, Leave, ChannelFailure(WasLeft));
        }
        topic.leaver := LeaveScheduled;
      }
    }

    /** The fields that the methods below look at. */
    lemma Fields(topic: TopicSubscription)
      ensures
        var c := View(topic);
        && c.state == topic.state && c.established == topic.established && c.leaveRequested == topic.leaveRequested
        && c.registered == IsRegistered(topic) && c.connection == topic.connection && c.generation == topic.generation
        && c.joinRef == topic.joinRef && c.ready == topic.ready && c.leaveRef == topic.leaveRef && c.pushes == topic.pushes
        && c.leaver == topic.leaver && c.recovery == topic.recovery && c.mail == topic.mail && c.operations == topic.operations
        && c.unsubscribed == topic.unsubscribed && c.leaveRequested == topic.leaveRequested
    {
    }

    method Observe(topic: TopicSubscription)
      modifies topic
      ensures View(topic) == Channels.Observe(old(View(topic)))
    {
      topic.terminal := true;
    }

    method ScheduleLoss(topic: TopicSubscription)
      modifies topic
      ensures View(topic) == old(View(topic)).(loss := LossScheduled)
    {
      topic.loss := LossScheduled;
    }

    /** `_is_connected`, `_is_on_current_connection`, `_should_rejoin` and `_can_recover` */
    predicate OnCurrent(topic: TopicSubscription)
      reads this, topic
    {
      && state == Connected && connection.Some? && topic.generation == generation
      && (topic.connection.None? || topic.connection == connection)
    }

    predicate MayRecover(topic: TopicSubscription, wanted: nat)
      reads this, topic
    {
      && !shutdown && IsRegistered(topic) && topic.established && !topic.leaveRequested && topic.state != Left
      && state == Connected && connection.Some? && wanted == generation
    }

    method BeginBackoff(topic: TopicSubscription, wanted: nat)
      modifies topic
      ensures View(topic) == old(View(topic)).(recovery := Backoff(wanted), recoveryCancelled := false)
    {
      topic.recovery, topic.recoveryCancelled := Backoff(wanted), false;
    }

    /** `_start_channel_recovery` */
    method StartChannelRecovery(topic: TopicSubscription, wanted: Option<nat>)
      modifies topic
      ensures View(topic) == StartRecovery(Now(), old(View(topic)), wanted)
    {
      hide View;
      Fields(topic);
      var recoveryGeneration := if wanted.Some? then wanted.value else generation;
      if !topic.recovery.NoRecovery? || !MayRecover(topic, recoveryGeneration)
         || (wanted.None? && topic.generation != recoveryGeneration) {
        return;
      }
      BeginBackoff(topic, recoveryGeneration);
    }

    /** `_start_topic_loss` */
    method StartTopicLoss(topic: TopicSubscription, failure: Failure)
      modifies topic
      ensures View(topic) == StartLoss(Now(), old(View(topic)), failure)
    {
      hide View, Transition, StartLeave;
      Fields(topic);
      TransitionFrame(Now(), View(topic), Close, failure);
      var established := topic.established;
      if topic.state != Left {
        TransitionChannel(topic, Close, failure);
      }
      if !established {
        StartLeaveTask(topic);
        return;
      }
      ScheduleLoss(topic);
    }

    /** `_handle_channel_lifecycle` */
    method HandleChannelLifecycle(topic: TopicSubscription, m: Message)
      requires Shape() && (m.event.ErrorEvent? || m.event.CloseEvent?)
      modifies topic, this`topics
      ensures Shape() && View(topic) == HandleLifecycle(Now(), old(View(topic)), m)
      ensures topics == old(topics) || topics == old(topics) - {topic.name}
    {
      hide View, Transition, StartRecovery, StartLoss, Release, Channels.Observe;
      Fields(topic);
      var joinRef, left, established := topic.joinRef, topic.state == Left, topic.established;
      if m.ref.Some? && m.ref.value != joinRef {
        return;
      }
      Observe(topic);
      if left {
        ReleaseReservation(topic);
        return;
      }
      var crashed := m.event.ErrorEvent?;
      var failure := ChannelFailure(if crashed then Crashed else ClosedByServer);
      TransitionChannel(topic, if crashed then Crash else Close, failure);
      if established {
        if crashed {
          StartChannelRecovery(topic, None);
        } else {
          StartTopicLoss(topic, failure);
        }
      }
    }

    // Replies

    ghost method RecordInstall(topic: TopicSubscription)
      modifies topic
      ensures View(topic) == Install(old(View(topic)))
    {
      topic.installed := topic.installed + [topic.joinRef];
    }

    /** `_handle_join_response_mode`; `hookOk` is whether the hook installed the response. */
    method HandleJoinResponse(topic: TopicSubscription, body: Body, hookOk: bool)
      requires Shape()
      modifies topic, this`topics
      ensures Shape() && View(topic) == HandleJoinReply(Now(), old(View(topic)), body, hookOk)
      ensures topics == old(topics) || topics == old(topics) - {topic.name}
    {
      hide View, Transition, Release, Channels.Observe, Accept, Install;
      Fields(topic);
      if !topic.ready.Pending? || topic.leaveRequested || shutdown {
        if topic.state == Left && body.isMap && body.status == StatusError {
          Observe(topic);
          ReleaseReservation(topic);
        }
        return;
      }
      if !body.isMap {
        TransitionChannel(topic, Rejected, ChannelFailure(JoinRefused));
        return;
      }
      if body.status == StatusOk {
        RecordInstall(topic);
        if !hookOk {
          TransitionChannel(topic, Configuration, ChannelFailure(HookFailed));
          return;
        }
        AcceptChannel(topic);
        return;
      }
      Observe(topic);
      TransitionChannel(topic, Rejected, ChannelFailure(JoinRefused));
    }

    method SetUnsubscribed(topic: TopicSubscription, f: Future)
      modifies topic
      ensures View(topic) == SettleUnsubscribed(old(View(topic)), f)
    {
      hide SettleOutcome;
      if topic.unsubscribed.Pending? {
        topic.unsubscribed := f;
        if topic.leaveRef.Some? {
          SetOutcome(topic, topic.leaveRef.value, f);
        }
      }
    }

    /** `_handle_leave_response` */
    method HandleLeaveResponse(topic: TopicSubscription, body: Body)
      modifies topic
      ensures View(topic) == HandleLeaveReply(old(View(topic)), body)
    {
      hide View, SettleUnsubscribed;
      if body.isMap && body.status == StatusOk {
        SetUnsubscribed(topic, Succeeded);
      } else {
        SetUnsubscribed(topic, Failed(ChannelFailure(LeaveRefused)));
      }
    }

    /** `_resolve_push_reply` for a ref that has a pending push. */
    method ResolvePushReply(topic: TopicSubscription, r: Ref, body: Body)
      modifies topic
      ensures View(topic) == ResolvePush(old(View(topic)), r, body)
    {
      hide SettleOutcome;
      topic.pushes := topic.pushes - {r};
      SetOutcome(topic, r, if body.wellFormed then Succeeded else Failed(ChannelFailure(MalformedReply)));
    }

    /** `_handle_channel_control` */
    method HandleChannelControl(topic: TopicSubscription, m: Message, hookOk: bool) returns (consumed: bool)
      requires Shape()
      modifies topic, this`topics
      ensures Shape() && (View(topic), consumed) == HandleControl(Now(), old(View(topic)), m, hookOk)
      ensures topics == old(topics) || topics == old(topics) - {topic.name}
    {
      hide View, HandleLifecycle, HandleJoinReply, HandleLeaveReply, ResolvePush;
      Fields(topic);
      if !IsRegistered(topic) || !OnCurrent(topic) {
        return true;
      }
      match m.event
      case ErrorEvent =>
        HandleChannelLifecycle(topic, m);
        return true;
      case CloseEvent =>
        HandleChannelLifecycle(topic, m);
        return true;
      case ApplicationEvent =>
        return topic.state != Joined;
      case ReplyEvent(body) =>
        if topic.leaveRef.Some? && m.ref == topic.leaveRef {
          HandleLeaveResponse(topic, body);
          return true;
        }
        if m.ref == Some(topic.joinRef) {
          HandleJoinResponse(topic, body, hookOk);
          return true;
        }
        if m.ref.Some? && m.ref.value in topic.pushes {
          ResolvePushReply(topic, m.ref.value, body);
          return true;
        }
        return topic.state != Joined;
    }

    // The queue

    /** `_enqueue_message` of `protocol_handler.py`: `get_nowait` on a full queue, then `put`. */
    method EnqueueMessage(topic: TopicSubscription, m: Message)
      modifies topic
      ensures View(topic) == Keep(Now(), old(View(topic)), m)
    {
      var mail := topic.mail;
      if |mail.queue| >= queueLimit && mail.queue != [] {
        mail := mail.(queue := mail.queue[1..], dropped := mail.dropped + 1);
      }
      mail := mail.(queue := mail.queue + [Item(|mail.log|, m.joinRef)], log := mail.log + [topic.joinRef]);
      topic.mail := mail;
    }

    /** `_drain_topic_queue` */
    method DrainTopicQueue(topic: TopicSubscription)
      modifies topic
      ensures View(topic) == old(View(topic)).(mail := Drain(old(topic.mail)))
    {
      var mail := topic.mail;
      while mail.queue != []
        invariant mail.drained + |mail.queue| == topic.mail.drained + |topic.mail.queue|
        invariant mail == topic.mail.(queue := mail.queue, drained := mail.drained)
        decreases |mail.queue|
      {
        mail := mail.(queue := mail.queue[1..], drained := mail.drained + 1);
      }
      assert mail == Drain(topic.mail);
      topic.mail := mail;
    }

    /** The body of the routing loop for a frame that names this topic. */
    method HandleFrame(topic: TopicSubscription, wanted: nat, m: Message, hookOk: bool)
      requires Shape()
      modifies topic, this`topics
      ensures Shape() && View(topic) == Route(Now(), old(View(topic)), wanted, m, hookOk)
      ensures topics == old(topics) || topics == old(topics) - {topic.name}
    {
      hide View, HandleControl, Keep;
      Fields(topic);
      if topic.generation != wanted {
        return;
      }
      if v2 && m.joinRef.Some? && m.joinRef.value != topic.joinRef {
        return;
      }
      ControlKeeps(Now(), View(topic), m, hookOk);
      var consumed := HandleChannelControl(topic, m, hookOk);
      if consumed {
        return;
      }
      EnqueueMessage(topic, m);
    }

    // Rejoining

    method MarkRejoining(topic: TopicSubscription)
      modifies topic
      ensures View(topic) == old(View(topic)).(state := Rejoining, cause := None)
    {
      topic.state, topic.cause := Rejoining, None;
    }

    method PlaceAnew(topic: TopicSubscription, wanted: nat)
      modifies topic
      ensures View(topic) == Placed(Now(), old(View(topic)), wanted)
    {
      hide View;
      Place(topic, wanted);
      MarkRejoining(topic);
    }

    method ForgetJoin(topic: TopicSubscription)
      modifies topic
      ensures View(topic) == Forgotten(old(View(topic)))
    {
      topic.joinSubmitted, topic.terminal, topic.restartRequested := false, false, false;
    }

    method RenewJoin(topic: TopicSubscription, ref: Ref)
      modifies topic
      ensures View(topic) == Renewed(old(View(topic)), ref)
    {
      topic.joinRef, topic.ready, topic.processor := ref, Pending, WaitingForMessage;
    }

    /** `_generate_ref` */
    method GenerateRef() returns (ref: Ref)
      modifies this`refs
      ensures refs == old(refs) + 1 == ref
    {
      refs := refs + 1;
      return refs;
    }

    /** `_restart_topic` */
    method RestartTopic(topic: TopicSubscription, wanted: nat)
      modifies topic, this`refs
      ensures View(topic) == Restart(old(Now()), old(View(topic)), wanted) && refs == old(refs) + 1
    {
      hide View, Placed, Forgotten, Renewed, Restart;
      RestartInParts(Now(), View(topic), wanted);
      Fields(topic);
      PlaceAnew(topic, wanted);
      ForgetJoin(topic);
      var ref := GenerateRef();
      RenewJoin(topic, ref);
      Fields(topic);
      DrainTopicQueue(topic);
    }

    // Sweeps

    method FailTopic(topic: TopicSubscription)
      requires IsRegistered(topic)
      modifies topic
      ensures View(topic) == FailPending(Now(), old(View(topic)))
    {
      hide View, Transition, SettleUnsubscribed, StartLeave;
      Fields(topic);
      if topic.connection.Some? && topic.connection != connection {
        return;
      }
      if topic.state == Left {
        SetUnsubscribed(topic, Failed(SocketFailure));
        return;
      }
      TransitionFrame(Now(), View(topic), Transport, SocketFailure);
      TransitionChannel(topic, Transport, SocketFailure);
      Fields(topic);
      if topic.leaveRequested {
        SetUnsubscribed(topic, Failed(SocketFailure));
        StartLeaveTask(topic);
      }
    }

    /** `_fail_pending_joins` */
    method FailPendingJoins()
      requires Shape()
      modifies topics.Values
      ensures Shape()
      ensures forall name :: name in topics ==> View(topics[name]) == FailPending(Now(), old(View(topics[name])))
    {
      hide FailPending;
      var rest := topics.Keys;
      while rest != {}
        invariant rest <= topics.Keys
        invariant forall name :: name in topics ==>
          View(topics[name])
          == if name in rest then old(View(topics[name])) else FailPending(Now(), old(View(topics[name])))
        decreases rest
      {
        var name :| name in rest;
        FailTopic(topics[name]);
        rest := rest - {name};
      }
    }

    method RetireTopic(topic: TopicSubscription, failure: Failure)
      requires Shape() && IsRegistered(topic)
      modifies topic, this`topics
      ensures Shape() && View(topic) == Channels.Retire(Now(), old(View(topic)), failure)
      ensures topics == old(topics) || topics == old(topics) - {topic.name}
    {
      hide View, Transition, StartLeave, Release, Channels.Observe;
      Fields(topic);
      var here := topic.connection == connection;
      TransitionChannel(topic, Stop, failure);
      if !here {
        Observe(topic);
        StartLeaveTask(topic);
        ReleaseReservation(topic);
      }
    }

    method RetireOne(all: map<string, TopicSubscription>, name: string, failure: Failure)
      requires Shape() && name in all && IsRegistered(all[name]) && (forall other :: other in all ==> all[other].name == other)
      modifies all[name], this`topics
      ensures Shape() && Now() == old(Now()) && View(all[name]) == Channels.Retire(Now(), old(View(all[name])), failure)
      ensures forall other :: other in all && other != name ==> View(all[other]) == old(View(all[other]))
      ensures topics == old(topics) || topics == old(topics) - {name}
    {
      hide Channels.Retire;
      RetireTopic(all[name], failure);
    }

    /** `_retire_channels`: it walks over a copy of the registry, which loses entries meanwhile. */
    method RetireChannels(failure: Failure)
      requires Shape()
      modifies topics.Values, this`topics
      ensures Shape()
      ensures forall name :: name in old(topics) ==>
        View(old(topics)[name]) == Channels.Retire(Now(), old(View(topics[name])), failure)
      ensures forall name :: name in topics ==> name in old(topics) && topics[name] == old(topics)[name]
    {
      hide Channels.Retire, View, Now;
      var all := topics;
      ghost var x := Now();
      var rest := topics.Keys;
      while rest != {}
        invariant Shape() && all == old(topics) && rest <= topics.Keys && topics.Keys <= all.Keys && Now() == x
        invariant forall name :: name in topics ==> topics[name] == all[name]
        invariant forall name :: name in rest ==> View(all[name]) == old(View(topics[name]))
        invariant forall name :: name in all && name !in rest ==>
          View(all[name]) == Channels.Retire(x, old(View(topics[name])), failure)
        decreases rest
      {
        var name :| name in rest;
        RetireOne(all, name, failure);
        rest := rest - {name};
      }
    }

    // Joins, pushes and leaves

    /** The exception handlers of `_join`. */
    method HandleJoinFailure(topic: TopicSubscription, failure: Failure)
      modifies topic
      ensures View(topic) == JoinFailed(Now(), old(View(topic)), failure)
    {
      hide View, Transition;
      Causes(topic);
      match failure
      case ChannelFailure(_) =>
        if topic.cause.None? || topic.cause == Some(Accepted) || topic.cause == Some(Timeout) {
          TransitionChannel(topic, Configuration, failure);
        }
      case TimeoutFailure =>
        TransitionChannel(topic, Timeout, ChannelFailure(DeadlineExpired));
      case _ =>
    }

    lemma Causes(topic: TopicSubscription)
      ensures View(topic).cause == topic.cause
    {
    }

    method Place(topic: TopicSubscription, wanted: nat)
      modifies topic
      ensures View(topic) == old(View(topic)).(generation := wanted, connection := old(connection))
    {
      topic.generation, topic.connection := wanted, connection;
    }

    method MarkJoining(topic: TopicSubscription, ref: Ref)
      modifies topic
      ensures View(topic) == old(View(topic)).(state := ChannelState.Joining, joinRef := ref)
    {
      topic.state, topic.joinRef := ChannelState.Joining, ref;
    }

    method StartJoining(topic: TopicSubscription, ref: Ref)
      modifies topic
      ensures View(topic) == Started(Now(), old(View(topic)), ref)
    {
      hide View;
      Place(topic, generation);
      MarkJoining(topic, ref);
    }

    /** The part of `_join_channel` under the lock; false stands for its ChannelError or SocketError. */
    method AdmitJoin(topic: TopicSubscription) returns (admitted: bool)
      requires Shape()
      modifies topic, this`topics, this`refs
      ensures Shape()
      ensures admitted == (old(topic.state) == Created && IsConnected(old(Now())) && topic.name !in old(topics))
      ensures if admitted
              then View(topic) == Admit(old(Now()), old(View(topic))) && topics == old(topics)[topic.name := topic]
                   && refs == old(refs) + 1
              else View(topic) == old(View(topic)) && topics == old(topics) && refs == old(refs)
    {
      hide Started, View, Admit;
      Fields(topic);
      if topic.state != Created || state != Connected || connection.None? || topic.name in topics {
        return false;
      }
      AdmitInParts(Now(), View(topic));
      StartedAlike(Now(), View(topic), refs + 1);
      var ref := GenerateRef();
      StartJoining(topic, ref);
      RegisterTopic(topic);
      return true;
    }

    method RegisterTopic(topic: TopicSubscription)
      requires Shape()
      modifies topic, this`topics
      ensures Shape() && topics == old(topics)[topic.name := topic]
      ensures View(topic) == old(View(topic)).(registered := true, processor := WaitingForMessage)
    {
      topics := topics[topic.name := topic];
      topic.processor := WaitingForMessage;
    }

    ghost method NoteLeave(topic: TopicSubscription)
      modifies topic
      ensures View(topic) == old(View(topic)).(leftBy := Some((Leave, ChannelFailure(WasLeft))))
    {
      topic.leftBy := Some((Leave, ChannelFailure(WasLeft)));
    }

    method LeaveNew(topic: TopicSubscription)
      requires topic.state == Created
      modifies topic
      ensures View(topic) == BeginLeave(Now(), old(View(topic)))
    {
      hide View;
      Fields(topic);
      Depart(topic, Leave);
      NoteLeave(topic);
    }

    /** `_leave_channel` until it waits for the leave task. */
    method BeginLeaving(topic: TopicSubscription)
      modifies topic
      ensures View(topic) == BeginLeave(Now(), old(View(topic)))
    {
      hide View, StartLeave;
      Fields(topic);
      if topic.state == Created {
        LeaveNew(topic);
      } else {
        StartLeaveTask(topic);
      }
    }

    /** `_unregister_topic` until it waits for the leave task; false stands for None, for a topic whose
        name is free or another's. */
    method UnregisterTopic(topic: TopicSubscription) returns (found: bool)
      modifies topic
      ensures found == old(IsRegistered(topic))
      ensures View(topic) == if found then Unregister(Now(), old(View(topic))) else old(View(topic))
    {
      hide View, Transition, StartLeave;
      Fields(topic);
      found := IsRegistered(topic);
      if !found {
        return;
      }
      if topic.state != Left {
        TransitionChannel(topic, Close, ChannelFailure(ClosedByServer));
      }
      StartLeaveTask(topic);
    }

    method MarkReported(topic: TopicSubscription)
      modifies topic
      ensures View(topic) == old(View(topic)).(lossReported := true, lossReports := old(topic.lossReports) + 1)
    {
      topic.lossReported, topic.lossReports := true, topic.lossReports + 1;
    }

    method EndLoss(topic: TopicSubscription)
      modifies topic
      ensures View(topic) == old(View(topic)).(loss := LossDone)
    {
      topic.loss := LossDone;
    }

    lemma LossFields(topic: TopicSubscription)
      ensures View(topic).lossReported == topic.lossReported && View(topic).lossReports == topic.lossReports
      ensures View(topic).loss == topic.loss
    {
    }

    /** `_report_topic_lost`: whether on_topic_lost is to be called. */
    method EndReport(topic: TopicSubscription) returns (report: bool)
      modifies topic
      ensures View(topic) == ReportLoss(old(View(topic))) && report == !old(topic.lossReported)
    {
      hide View;
      LossFields(topic);
      report := !topic.lossReported;
      if report {
        MarkReported(topic);
      }
      EndLoss(topic);
    }

    // The processor

    method SkipNext(topic: TopicSubscription, next: Processor)
      requires topic.mail.queue != []
      modifies topic
      ensures View(topic) == SkipMessage(old(View(topic)), next)
    {
      topic.mail, topic.processor := Skip(topic.mail), next;
    }

    method DispatchNext(topic: TopicSubscription, next: Processor)
      requires topic.mail.queue != []
      modifies topic
      ensures View(topic) == DispatchMessage(old(View(topic)), next)
    {
      topic.mail, topic.processor := Dispatch(topic.mail, topic.joinRef), next;
    }

    lemma Restarting(topic: TopicSubscription)
      ensures View(topic).restartRequested == topic.restartRequested
    {
    }

    method TakeTurn(topic: TopicSubscription, handled: bool)
      requires topic.mail.queue != []
      modifies topic
      ensures old(View(topic)).mail == old(topic.mail)
      ensures View(topic) == TakeMessage(Now(), old(View(topic)), handled)
    {
      hide View, SkipMessage, DispatchMessage;
      Fields(topic);
      Restarting(topic);
      var next := if topic.state == Left then ProcessorEnded else WaitingForMessage;
      if topic.restartRequested {
        SkipNext(topic, ProcessorEnded);
        return;
      }
      if v2 && topic.mail.queue[0].joinRef.Some? && topic.mail.queue[0].joinRef.value != topic.joinRef {
        SkipNext(topic, next);
        return;
      }
      if topic.state == Joined && IsRegistered(topic) && OnCurrent(topic) && topic.ready.Succeeded? && !topic.leaveRequested {
        DispatchNext(topic, if handled then HandlingMessage else next);
        return;
      }
      SkipNext(topic, next);
    }

    // From one await to the next

    method AwaitJoin(topic: TopicSubscription, connection: ConnectionId)
      modifies topic
      ensures View(topic) == JoinAwaited(old(View(topic)), connection)
    {
      topic.operations := topic.operations[topic.joinRef := Operation(JoinOperation, connection, topic.joinRef, Pending, Scheduled)];
      topic.joiner := Some(topic.joinRef);
    }

    /** `_join_channel` after its admission, until it waits for the reply or for the leave task. */
    method SubmitOrLeave(topic: TopicSubscription, hookSync: bool, paramsOk: bool)
      requires topic.connection.Some?
      modifies topic
      ensures View(topic) == Submitted(Now(), old(View(topic)), hookSync, paramsOk)
    {
      hide View, JoinFailed, StartLeave;
      Fields(topic);
      if hookSync && paramsOk {
        AwaitJoin(topic, topic.connection.value);
        return;
      }
      if hookSync {
        HandleJoinFailure(topic, ChannelFailure(BadParams));
      }
      StartLeaveTask(topic);
    }

    method BeginJoining(topic: TopicSubscription, hookSync: bool, paramsOk: bool) returns (admitted: bool)
      requires Shape()
      modifies topic, this`topics, this`refs
      ensures Shape()
      ensures admitted == (old(topic.state) == Created && IsConnected(old(Now())) && topic.name !in old(topics))
      ensures if admitted
              then View(topic) == BeginJoin(old(Now()), old(View(topic)), hookSync, paramsOk)
                   && topics == old(topics)[topic.name := topic] && refs == old(refs) + 1
              else View(topic) == old(View(topic)) && topics == old(topics) && refs == old(refs)
    {
      hide View, BeginJoin, Submitted, Admit;
      ghost var x, c := Now(), View(topic);
      admitted := AdmitJoin(topic);
      if admitted {
        AdmitPlaces(x, c);
        Fields(topic);
        BeginJoinInParts(x, c, hookSync, paramsOk);
        SubmitOrLeave(topic, hookSync, paramsOk);
      }
    }

    method JoinAlone(topic: TopicSubscription, hookSync: bool, paramsOk: bool) returns (admitted: bool)
      requires Shape()
      modifies topic, this`topics, this`refs
      ensures Shape()
      ensures admitted == (old(topic.state) == Created && IsConnected(old(Now())) && topic.name !in old(topics))
      ensures if admitted
              then View(topic) == BeginJoin(old(Now()), old(View(topic)), hookSync, paramsOk)
                   && topics == old(topics)[topic.name := topic] && refs == old(refs) + 1
              else View(topic) == old(View(topic)) && topics == old(topics) && refs == old(refs)
      ensures forall name :: name in old(topics) ==>
        name in topics && topics[name] == old(topics)[name] && View(topics[name]) == old(View(topics[name]))
    {
      hide BeginJoin;
      admitted := BeginJoining(topic, hookSync, paramsOk);
    }

    method JoinUnassigned(topic: TopicSubscription, hookSync: bool, paramsOk: bool) returns (admitted: bool)
      requires Valid()
      requires topic.name !in topics ==> RoleFor(topic.name) == Uninvolved
      requires topic.state == Created ==> View(topic) == NewChannel(topic.name, topic.blocksReconnect)
      modifies topic, this`topics, this`refs
      ensures Valid()
      ensures admitted == (old(topic.state) == Created && IsConnected(old(Now())) && topic.name !in old(topics))
      ensures if admitted then View(topic) == BeginJoin(old(Now()), old(View(topic)), hookSync, paramsOk)
              else View(topic) == old(View(topic)) && topics == old(topics)
    {
      hide ChannelOk, ContextOk, BeginJoin, NewChannel, View;
      ghost var x := Now();
      admitted := JoinAlone(topic, hookSync, paramsOk);
      if admitted {
        JoinKeeps(x, cleaning, topic.name, topic.blocksReconnect, hookSync, paramsOk);
        RefsOk(x);
        RefGenerated(x, old(topics).Keys);
      }
    }

    /** A ref generated for one topic does not concern the others. */
    lemma RefGenerated(x: Context, names: set<string>)
      requires forall name :: name in names ==> name in topics && ChannelOk(x, cleaning, RoleFor(name), View(topics[name]))
      ensures forall name :: name in names ==> ChannelOk(x.(refs := x.refs + 1), cleaning, RoleFor(name), View(topics[name]))
    {
      hide ChannelOk, View;
      forall name | name in names ensures ChannelOk(x.(refs := x.refs + 1), cleaning, RoleFor(name), View(topics[name])) {
        OthersOk(x, cleaning, RoleFor(name), View(topics[name]));
      }
    }

    /** `join` is called; `hookSync` is whether the hook is no coroutine function, `paramsOk` whether the
        join params resolve. False stands for a ChannelError or SocketError that changes nothing. */
    method JoinChannel(topic: TopicSubscription, hookSync: bool, paramsOk: bool) returns (admitted: bool)
      requires Valid()
      requires topic.state == Created ==> View(topic) == NewChannel(topic.name, topic.blocksReconnect)
      modifies topic, this`topics, this`refs, this`roles
      ensures Valid()
      ensures admitted == (old(topic.state) == Created && IsConnected(old(Now())) && topic.name !in old(topics))
      ensures if admitted then View(topic) == BeginJoin(old(Now()), old(View(topic)), hookSync, paramsOk)
              else View(topic) == old(View(topic)) && topics == old(topics)
    {
      hide ChannelOk, ContextOk, BeginJoin, NewChannel, View;
      if topic.name !in topics {
        ForgetRole(topic.name);
      }
      admitted := JoinUnassigned(topic, hookSync, paramsOk);
    }

    /** A free name takes no part in the pass. */
    ghost method ForgetRole(name: string)
      requires Valid() && name !in topics
      modifies this`roles
      ensures Valid() && RoleFor(name) == Uninvolved
      ensures forall other :: other != name ==> RoleFor(other) == old(RoleFor(other))
    {
      hide ChannelOk, View;
      roles := roles - {name};
    }

    /** A frame that names this topic arrives. */
    method RouteMessage(topic: TopicSubscription, wanted: nat, m: Message, hookOk: bool)
      requires Valid() && IsRegistered(topic) && (wanted == generation ==> routing)
      modifies topic, this`topics
      ensures Valid() && View(topic) == Route(Now(), old(View(topic)), wanted, m, hookOk)
      ensures FrameEffect(Now(), old(View(topic)), wanted, m, hookOk, View(topic))
      ensures topics == old(topics) || topics == old(topics) - {topic.name}
    {
      hide ChannelOk, ContextOk, Route, FrameEffect;
      FrameHasEffect(Now(), cleaning, RoleFor(topic.name), View(topic), wanted, m, hookOk);
      RouteKeeps(Now(), cleaning, RoleFor(topic.name), View(topic), wanted, m, hookOk);
      HandleFrame(topic, wanted, m, hookOk);
    }

    /** `leave` is called. */
    method LeaveChannel(topic: TopicSubscription)
      requires Valid()
      modifies topic
      ensures Valid() && View(topic) == BeginLeave(Now(), old(View(topic)))
    {
      hide ChannelOk, ContextOk, BeginLeave;
      if IsRegistered(topic) {
        LeaveKeeps(Now(), cleaning, RoleFor(topic.name), View(topic));
      }
      BeginLeaving(topic);
    }

    /** One turn of `_process_topic_messages` with the next message. */
    method TakeNextMessage(topic: TopicSubscription, handled: bool)
      requires Valid() && topic.processor == WaitingForMessage && topic.mail.queue != []
      modifies topic
      ensures old(View(topic)).mail == old(topic.mail)
      ensures Valid() && View(topic) == TakeMessage(Now(), old(View(topic)), handled)
    {
      hide ChannelOk, ContextOk, TakeMessage;
      if IsRegistered(topic) {
        TakeKeeps(Now(), cleaning, RoleFor(topic.name), View(topic), handled);
      }
      TakeTurn(topic, handled);
    }

    method SetLoss(topic: TopicSubscription, loss: Loss)
      modifies topic
      ensures View(topic) == old(View(topic)).(loss := loss)
    {
      topic.loss := loss;
    }

    /** The first stretch of `_lose_topic`, up to its wait for the leave task. */
    method LoseTopic(topic: TopicSubscription)
      requires Valid() && topic.loss == LossScheduled
      modifies topic
      ensures Valid() && View(topic) == StartUnregister(Now(), old(View(topic)))
    {
      hide ChannelOk, ContextOk, Unregister, View;
      Fields(topic);
      LossFields(topic);
      if IsRegistered(topic) {
        LoseKeeps(Now(), cleaning, RoleFor(topic.name), View(topic));
      }
      var found := UnregisterTopic(topic);
      SetLoss(topic, if found then LossUnregistering else LossDone);
    }

    method EndLeaving(topic: TopicSubscription)
      modifies topic
      ensures View(topic) == EndLeave(old(View(topic)))
    {
      topic.processor, topic.cleanupDone, topic.leaver := ProcessorEnded, true, LeaverDone;
    }

    method EndCleanupOf(topic: TopicSubscription)
      requires Shape()
      modifies topic, this`topics
      ensures Shape() && View(topic) == Channels.FinishCleanup(Now(), old(View(topic)))
      ensures topics == old(topics) || topics == old(topics) - {topic.name}
    {
      hide Release, EndLeave, View;
      EndLeaving(topic);
      ReleaseReservation(topic);
    }

    /** The end of `_cleanup_subscription`, once the recovery, the processor and every write are over. */
    method FinishCleanup(topic: TopicSubscription)
      requires Valid() && topic.leaver == CleaningUp && topic.recovery.NoRecovery?
      requires !HasPendingSend(topic.operations)
      modifies topic, this`topics
      ensures Valid() && View(topic) == Channels.FinishCleanup(Now(), old(View(topic)))
      ensures topics == old(topics) || topics == old(topics) - {topic.name}
    {
      hide ChannelOk, ContextOk, Channels.FinishCleanup, HasPendingSend;
      if IsRegistered(topic) {
        CleanupKeeps(Now(), cleaning, RoleFor(topic.name), View(topic));
      }
      EndCleanupOf(topic);
    }

    /** The loss task reports its loss, unless it was reported. */
    method ReportTopicLost(topic: TopicSubscription) returns (report: bool)
      requires Valid() && topic.loss == LossReporting
      modifies topic
      ensures Valid() && View(topic) == ReportLoss(old(View(topic))) && report == !old(topic.lossReported)
    {
      hide ChannelOk, ContextOk, ReportLoss;
      if IsRegistered(topic) {
        ReportKeeps(Now(), cleaning, RoleFor(topic.name), View(topic));
      }
      report := EndReport(topic);
    }

    /** The routing task stops: `_fail_joins_when_routing_stops`. */
    method StopRouting()
      requires Valid() && connection.Some? && routing
      modifies topics.Values, this`routing
      ensures Valid() && !routing
      ensures forall name :: name in topics ==> View(topics[name]) == FailPending(old(Now()), old(View(topics[name])))
    {
      hide ChannelOk, FailPending, View;
      forall name | name in topics
        ensures ChannelOk(Now().(routing := false), cleaning, RoleFor(name), FailPending(Now(), View(topics[name])))
      {
        RoutingStopsOk(Now(), cleaning, RoleFor(name), View(topics[name]));
      }
      FailPendingJoins();
      routing := false;
    }

    /** `_fail_send_session` on the current session. */
    method FailSendSession()
      requires Valid() && connection.Some? && !sendFailed
      modifies topics.Values, this`state, this`sendFailed
      ensures Valid() && Now() == SessionFailed(old(Now()))
      ensures forall name :: name in topics ==> View(topics[name]) == FailPending(old(Now()), old(View(topics[name])))
    {
      hide ChannelOk, FailPending, View;
      forall name | name in topics
        ensures ChannelOk(SessionFailed(Now()), cleaning, RoleFor(name), FailPending(Now(), View(topics[name])))
      {
        FailSessionOk(Now(), cleaning, RoleFor(name), View(topics[name]));
      }
      FailPendingJoins();
      if state == Connected {
        state := Reconnecting;
      }
      sendFailed := true;
    }

    /** The channels' part of `_settle_supervisor_exit`. */
    method EndSupervisor()
      requires Valid() && connection.None? && state != ShuttingDown
      modifies topics.Values, this`topics, this`state
      ensures Valid() && Now() == old(Now()).(state := Closed)
      ensures forall name :: name in old(topics) ==>
        View(old(topics)[name]) == Channels.Retire(old(Now()), old(View(topics[name])), SocketFailure)
    {
      hide ChannelOk, Channels.Retire, View;
      ghost var x := Now();
      forall name | name in topics
        ensures ChannelOk(x.(state := Closed), cleaning, RoleFor(name), Channels.Retire(x, View(topics[name]), SocketFailure))
      {
        RetireSame(x, x.(state := Closed), View(topics[name]), SocketFailure);
        RetireOk(x, x.(state := Closed), cleaning, RoleFor(name), View(topics[name]), SocketFailure);
      }
      RetireChannels(SocketFailure);
      state := Closed;
    }

    method FlagStop()
      modifies this`state, this`shutdown
      ensures Now() == StopRequested(old(Now()))
    {
      if state != ShuttingDown && state != Closed {
        state := ShuttingDown;
      }
      shutdown := true;
    }

    /** `_request_stop` */
    method RequestStop()
      requires Valid()
      modifies topics.Values, this`topics, this`state, this`shutdown
      ensures Valid() && Now() == StopRequested(old(Now()))
      ensures forall name :: name in old(topics) ==>
        View(old(topics)[name]) == Channels.Retire(Now(), old(View(topics[name])), ChannelFailure(StoppingClient))
    {
      hide ChannelOk, Channels.Retire, View;
      forall name | name in topics
        ensures ChannelOk(StopRequested(Now()), cleaning, RoleFor(name),
                          Channels.Retire(StopRequested(Now()), View(topics[name]), ChannelFailure(StoppingClient)))
      {
        RetireOk(Now(), StopRequested(Now()), cleaning, RoleFor(name), View(topics[name]), ChannelFailure(StoppingClient));
      }
      FlagStop();
      RetireChannels(ChannelFailure(StoppingClient));
    }
  }

  // `_join_channel` after its admission

  function JoinAwaited(c: Channel, connection: ConnectionId): Channel {
    c.(operations := c.operations[c.joinRef := Operation(JoinOperation, connection, c.joinRef, Pending, Scheduled)],
       joiner := Some(c.joinRef))
  }

  function Submitted(x: Context, c: Channel, hookSync: bool, paramsOk: bool): Channel
    requires c.connection.Some?
  {
    if hookSync && paramsOk then JoinAwaited(c, c.connection.value)
    else if hookSync then StartLeave(x, JoinFailed(x, c, ChannelFailure(BadParams)))
    else StartLeave(x, c)
  }

  lemma AdmitPlaces(x: Context, c: Channel)
    ensures Admit(x, c).connection == x.connection && Admit(x, c).joinRef == x.refs + 1
  {
  }

  lemma TransitionAlike(x: Context, y: Context, c: Channel, cause: Cause, failure: Failure)
    requires y == x.(refs := y.refs)
    ensures Transition(x, c, cause, failure) == Transition(y, c, cause, failure)
  {
    hide FailOutcomes, SettleOutcome;
  }

  lemma StartLeaveAlike(x: Context, y: Context, c: Channel)
    requires y == x.(refs := y.refs)
    ensures StartLeave(x, c) == StartLeave(y, c)
  {
    hide Transition;
    TransitionAlike(x, y, c, Leave, ChannelFailure(WasLeft));
  }

  lemma JoinFailedAlike(x: Context, y: Context, c: Channel)
    requires y == x.(refs := y.refs)
    ensures JoinFailed(x, c, ChannelFailure(BadParams)) == JoinFailed(y, c, ChannelFailure(BadParams))
  {
    hide Transition;
    TransitionAlike(x, y, c, Configuration, ChannelFailure(BadParams));
  }

  lemma BeginJoinInParts(x: Context, c: Channel, hookSync: bool, paramsOk: bool)
    requires x.connection.Some?
    ensures Admit(x, c).connection.Some?
    ensures BeginJoin(x, c, hookSync, paramsOk) == Submitted(x.(refs := x.refs + 1), Admit(x, c), hookSync, paramsOk)
  {
    hide Admit, StartLeave, JoinFailed;
    AdmitPlaces(x, c);
    var y := x.(refs := x.refs + 1);
    JoinFailedAlike(x, y, Admit(x, c));
    StartLeaveAlike(x, y, Admit(x, c));
    StartLeaveAlike(x, y, JoinFailed(x, Admit(x, c), ChannelFailure(BadParams)));
  }

  lemma RefsOk(x: Context)
    requires ContextOk(x)
    ensures ContextOk(x.(refs := x.refs + 1))
  {
  }

  // The stretches keep the invariant

  lemma JoinKeeps(x: Context, cleaning: Cleaning, name: string, blocksReconnect: bool, hookSync: bool, paramsOk: bool)
    requires ContextOk(x) && IsConnected(x)
    ensures ChannelOk(x.(refs := x.refs + 1), cleaning, Uninvolved, BeginJoin(x, NewChannel(name, blocksReconnect), hookSync, paramsOk))
  {
    hide Sound, Attended, BeginJoin, NewChannel;
    var c := NewChannel(name, blocksReconnect);
    NewChannelOk(x, cleaning, name, blocksReconnect);
    NewIsCreated(name, blocksReconnect);
    JoinCallSound(x, cleaning, Uninvolved, c, hookSync, paramsOk);
    BeginJoinAttended(x, cleaning, Uninvolved, c, hookSync, paramsOk);
  }

  lemma NewIsCreated(name: string, blocksReconnect: bool)
    ensures NewChannel(name, blocksReconnect).state == Created
  {
  }

  lemma RouteKeeps(x: Context, cleaning: Cleaning, role: Role, c: Channel, wanted: nat, m: Message, hookOk: bool)
    requires ContextOk(x) && ChannelOk(x, cleaning, role, c) && c.registered && (wanted == x.generation ==> x.routing)
    ensures ChannelOk(x, cleaning, role, Route(x, c, wanted, m, hookOk))
  {
    hide Sound, Attended, Route;
    CreatedFacts(x, cleaning, role, c);
    RouteSound(x, cleaning, role, c, wanted, m, hookOk);
    RouteAttended(x, cleaning, role, c, wanted, m, hookOk);
  }

  lemma FrameHasEffect(x: Context, cleaning: Cleaning, role: Role, c: Channel, wanted: nat, m: Message, hookOk: bool)
    requires ChannelOk(x, cleaning, role, c) && c.registered
    ensures FrameEffect(x, c, wanted, m, hookOk, Route(x, c, wanted, m, hookOk))
  {
    hide Sound, Attended, Route, FrameEffect;
    FrameTakesEffect(x, cleaning, role, c, wanted, m, hookOk);
  }

  lemma LeaveKeeps(x: Context, cleaning: Cleaning, role: Role, c: Channel)
    requires ChannelOk(x, cleaning, role, c)
    ensures ChannelOk(x, cleaning, role, BeginLeave(x, c))
  {
    hide Sound, Attended, BeginLeave;
    BeginLeaveSound(x, cleaning, role, c);
    BeginLeaveAttended(x, cleaning, role, c);
  }

  lemma TakeKeeps(x: Context, cleaning: Cleaning, role: Role, c: Channel, handled: bool)
    requires ContextOk(x) && ChannelOk(x, cleaning, role, c) && c.processor.WaitingForMessage? && c.mail.queue != []
    ensures ChannelOk(x, cleaning, role, TakeMessage(x, c, handled))
  {
    hide Sound, Attended, TakeMessage, CauseKept;
    CauseIsKept(x, role, c);
    ActSound(x, cleaning, role, c, ProcessorTakes(handled));
    TakeMessageAttended(x, role, c, handled);
  }

  lemma LoseKeeps(x: Context, cleaning: Cleaning, role: Role, c: Channel)
    requires ContextOk(x) && ChannelOk(x, cleaning, role, c) && c.loss.LossScheduled?
    ensures ChannelOk(x, cleaning, role, StartUnregister(x, c))
  {
    hide Sound, Attended, StartUnregister, CauseKept;
    CauseIsKept(x, role, c);
    ActSound(x, cleaning, role, c, LossStarts);
    LossStartsAttended(x, cleaning, role, c);
  }

  lemma CleanupKeeps(x: Context, cleaning: Cleaning, role: Role, c: Channel)
    requires ContextOk(x) && ChannelOk(x, cleaning, role, c) && c.leaver.CleaningUp? && c.recovery.NoRecovery?
    requires !HasPendingSend(c.operations)
    ensures ChannelOk(x, cleaning, role, Channels.FinishCleanup(x, c))
  {
    hide Sound, Attended, Channels.FinishCleanup, CauseKept, HasPendingSend;
    CauseIsKept(x, role, c);
    ActSound(x, cleaning, role, c, LeaveCleansUp);
    FinishCleanupAttended(x, role, c);
  }

  lemma ReportKeeps(x: Context, cleaning: Cleaning, role: Role, c: Channel)
    requires ContextOk(x) && ChannelOk(x, cleaning, role, c) && c.loss.LossReporting?
    ensures ChannelOk(x, cleaning, role, ReportLoss(c))
  {
    hide Sound, Attended, ReportLoss, CauseKept;
    CauseIsKept(x, role, c);
    ActSound(x, cleaning, role, c, LossReported);
    ReportAttended(x, role, c);
  }

  // The admission in two parts

  function Started(x: Context, c: Channel, ref: Ref): Channel {
    c.(state := ChannelState.Joining, generation := x.generation, connection := x.connection, joinRef := ref)
  }

  lemma StartedAlike(x: Context, c: Channel, ref: Ref)
    ensures Started(x.(refs := ref), c, ref) == Started(x, c, ref)
  {
  }

  lemma AdmitInParts(x: Context, c: Channel)
    ensures Started(x, c, x.refs + 1).(registered := true, processor := WaitingForMessage) == Admit(x, c)
  {
  }

  // `_restart_topic` in three parts

  function Placed(x: Context, c: Channel, wanted: nat): Channel {
    c.(generation := wanted, connection := x.connection, state := Rejoining, cause := None)
  }

  function Forgotten(c: Channel): Channel {
    c.(joinSubmitted := false, terminal := false, restartRequested := false)
  }

  function Renewed(c: Channel, ref: Ref): Channel {
    c.(joinRef := ref, ready := Pending, processor := WaitingForMessage)
  }

  lemma RestartInParts(x: Context, c: Channel, wanted: nat)
    ensures
      var d := Renewed(Forgotten(Placed(x, c, wanted)), x.refs + 1);
      Restart(x, c, wanted) == d.(mail := Drain(d.mail))
  {
  }

  /** A frame that is not consumed has changed nothing. */
  lemma ControlKeeps(x: Context, c: Channel, m: Message, hookOk: bool)
    ensures !HandleControl(x, c, m, hookOk).1 ==> HandleControl(x, c, m, hookOk).0 == c
  {
    hide HandleLifecycle, HandleJoinReply, HandleLeaveReply, ResolvePush, OnCurrentConnection;
  }
}
